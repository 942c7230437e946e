# De-MLS: a verified model of the commit round, the steward list and the recovery ladder

De-MLS lets a group of members change who is in an MLS group without a server. Members vote
on changes; stewards mint commits that carry what was approved; every member collects the
competing commits, ranks them, checks them and merges the best one that passes. When nobody
commits, the group elects a new steward list; when elections fail, recovery lets any member
commit. This project models that logic in Dafny and proves what keeps it together.

**How it is laid out.** Values carry the meaning: `Queues`, `Mls`, `Stewards`, `Life`, `Node`
and the functions on them say what each operation does, and the lemmas are about those
functions. Where the program changes objects in place there is a class with the same fields
(`ConversationQueues`, `CommitRoundBuffer`, `MlsService`, `StewardListService`,
`PeerScoringService`, `ConversationStateMachine`, `PhaseTimer`, `Conversation`), and each of its
methods is proved to move the object's value exactly as the function says, loops included.

| file | content |
|---|---|
| ByteStrings, Sorting, Modular | byte order, leaf encoding, stable sorting, remainders |
| Protocol | requests, candidates, scores; the foreign functions (`World`) |
| MlsGroup, Seating | the abstract group, its two commit slots, the membership delta; whom a valid commit seats and where |
| StewardLists | the deterministic list, rotation, election authority |
| PeerScoring | score batches and the sparse snapshot |
| CommitBuffer, Queues | the round buffer; approved queue, early stash, join epochs |
| Consensus, Outcomes | what a resolved vote does; clean queues over whole runs |
| CommitValidation, CommitApply | snapshot, ranking, checks; the apply loop |
| CandidateIntake | receiving, replaying and minting candidates |
| Duty | who is on duty, who is told off and who is rewarded |
| Agreement, Fairness | when the minter and its peers agree on a round; who is never fined |
| Confluence, Urgency | arrival order within an epoch, and the one thing it decides |
| Nodes, Lockstep | members over many epochs |
| SyncMessages | what a sync carries, and what taking it over does |
| Lifecycle, ConversationModel, Conversation | the state machine, recovery, the whole object |
| Transitions, VoteEffects, PhaseMoves | what every drive and every vote does to phase, mode, timers, list and scores; exactly which steps move a conversation |
| Projection | a conversation outside recovery is a lockstep member |
| Membership, Leaving | leaf-keyed state over every run; when a member is told that it is out |
| ConversationSync, ListsInForce, SyncRules, Founding | which syncs are taken, and which a joiner accepts after which runs; how a group starts |
| Examples, Delisting | a three-member conversation in which the weak spots show |

**What is foreign.** SHA-256, key-package parsing, the wire-kind check and the cryptographic
opening of a bundle are the fields of `World`: fixed but arbitrary functions of their
arguments. On top of `open`, staging checks the rules of section 12.2 of RFC 9420 and merging
follows sections 12.1.1 and 12.3. What the MLS library mints is an input; `Minted` says what is
assumed of it. Votes arrive as outcomes, time as a number.

**The main results.**

- When a round agrees. The minter merges its own commit unchecked and everybody else stages and
  checks the same bytes. Two members in the same group, with the same changes approved, the same
  steward list and the same candidates buffered, end any round, strict, subset or recovery, in the
  same group exactly if neither of them merges a commit of its own that would not pass at a peer,
  that is, one by a member that is not authorized or with fewer changes than are approved
  (`Agreement.RoundAgreementIff`). A strict round therefore agrees as long as the list still names
  whoever minted (`Agreement.StrictRoundAgreement`): a minted batch only skips entries, and the
  count filter lets it pass only if it skipped none.
- Honest stewards are not fined. In any round, strict, subset or recovery, a listed steward whose
  commit carries what was approved, and that signed nothing else that is at hand, never loses
  score, picked or not (`Fairness.HonestStewardNeverFined`).
- Lockstep. The creator of a group and its founding members start alike, provided they remember
  equally many commits (`Founding.FoundersStartAlike`), and members that start alike and see the
  same votes and candidates, each in its own order, stay alike over any number of rounds and
  elections in which nobody merges a commit that would not pass at a peer
  (`Lockstep.LockstepConvergence`); a round in which somebody does parts them
  (`Lockstep.AlikeRoundAgreesIff`). A whole conversation outside recovery that takes no sync over
  is such a member (`Projection.NormalRunIsNodeRun`).
- Arrival order does not matter within an epoch (`Confluence.ArrivalOrderConfluence`), except
  for the urgent mark: `Urgency.UrgencyIsOrderFreeIff` says exactly when all orders agree on it,
  and `Urgency.UrgencySplitsQueues` what becomes of the queues when they do not.
- A past election can be worked out again later, after any run, recovery included
  (`Membership.RetrospectiveSettledness`). Every list that comes into force is the list of an
  election on record (`ListsInForce.ListInForceIsElected`), so from genesis on, after any run, the
  sync a member sends passes a joiner's check exactly if no steward on its list has left since the
  list was installed (`Founding.GenesisSyncPassesIff`).
- Over every run a member stays seated until a round tells it that it is out, and is told so by
  the round that removes it; in strict rounds it is told only then (`Leaving.LeavesWhenRemoved`).
- The phases move exactly as they should. Recovery opens by an accepted Deadlock and ends by a
  merged commit, an empty queue, the stop-line or an accepted list, and by nothing else
  (`PhaseMoves.RecoveryMovesIff`); a reelection starts exactly when a round outside recovery ends
  with approved work and no commit (`PhaseMoves.ReelectionStartsIff`); and over every run the retry
  round is the number of lists that failed since the last commit
  (`PhaseMoves.RetryRoundCountsFailures`).
- A list that covers its epoch survives every sync and every run without an accepted list vote
  (`SyncRules.LiveListSurvives`), and no key is ever seated twice (`Leaving.KeysNeverCollide`).
- The lifecycle is safe and recovery bounded over every run
  (`ConversationModel.LifecycleSafety`, `ConversationModel.RecoveryIsBounded`).

**Where code and comments disagree, or the code does what one would not expect** (the code is
what is modelled; each point has its exact condition and an input):

- `validate_conversation_sync` says that stewards removed since the election are tolerated as
  long as one is left (src/conversation/inbound.rs:680-682). The list check is positional: the
  sync passes exactly if no listed steward has left (`ListsInForce.SentSyncPassesIff`), and
  `Examples.SyncRefusedThoughStewardsRemain` is a run in which one of three leaves and the sync
  is refused.
- The same check does not ask whether the members a sync lists scores for are seated, so taking a
  sync over keeps the score table on the seats exactly if they are
  (`Membership.AdoptionKeepsKeysIff`); `Examples.StrangerIsTracked` is a sync that is taken and
  puts a stranger into the table.
- A strict round can split the group. When a list elected after the mint drops the minter, the
  minter merges its own commit, which is never checked against the list, and every peer rejects it
  (`Agreement.DelistedMinterSplits`); `Delisting.StrictRoundSplitExists` is an epoch in which two
  members that start alike and see the same things part that way. In a subset round a batch with
  too few changes does the same (`Agreement.SubsetRoundSplits`, `Examples.SubsetRoundSplitExists`).
- `leave_or_update` takes its flag to mean that the member's removal was in the batch
  (src/commit_round/apply.rs:186-188). On the own path the flag says that the removal has been
  approved (src/commit_round/apply.rs:178), so a member is told to leave exactly if the commit
  removes it or the commit is its own while its removal is approved (`Leaving.LeaveIff`). In
  `Examples.LeavesWhileSeated` a member that minted before its own removal was approved merges its
  commit, leaves, and is still seated. In a strict round this cannot happen
  (`Leaving.StrictRoundLeavesIff`).
- `validate_election_list` does not look at the epoch a list is dated for
  (src/conversation/steward.rs:360-377). A list dated ahead installs, covers no epoch yet, and is
  refused by every joiner (`ListsInForce.ListDatedAheadInstalls`).
- `responsible_proposer` is described as naming the classic election proposer in round 0
  (src/steward_list/service.rs:205-213). That holds exactly under the condition of
  `StewardLists.RoundZeroIsElectionProposerIff`; `StewardLists.RoundZeroCanDiffer` is a list and
  a pool for which it does not.
- The committed batch handed out for history never lists a removal that the commit carried out:
  bookkeeping drops it from the queue before the queue is drained (src/commit_round/apply.rs:297,
  src/conversation/queues.rs:202). `CommitApply.BatchOmitsRemovals` says exactly when the batch is
  the whole queue, and in `Examples.BatchOmitsTheRemoval` it is empty.
- Three kinds of malformed request reach the approved queue when accepted: an emergency without
  evidence, a request without payload, and an invite whose key package does not parse
  (src/consensus/apply_result.rs:117-158). The queue stays clean exactly if the request was
  well-formed (`Consensus.CleanIffWellFormed`); once such an entry fits into the batch, every mint
  fails (`CandidateIntake.MalformedRequestStallsMints`, `CandidateIntake.MintFailsIff`).
- The urgent target depends on the order in which votes resolve: a ban before or after a
  below-threshold vote on the same member (`Consensus.UrgencyDependsOnOrder`), two below-threshold
  votes on different members (`Consensus.LaterUrgencyWins`).

## Model

| member | source | states |
|---|---|---|
| ByteStrings.MemberIdRoundTrip | src/mls_crypto/member_id.rs:56-66 | decoding an encoded leaf index gives the leaf back |
| ByteStrings.LeafRoundTrip | src/mls_crypto/member_id.rs:62-66 | every four-byte id is the id of the leaf it decodes to |
| ByteStrings.LessMeaning | src/commit_round/validate.rs:237-268 | byte strings compare from the left: the first to run out or to fall below comes first |
| ByteStrings.MemberIdKeepsOrder | src/mls_crypto/member_id.rs:56-66 | members sort by the leaves they sit on |
| Protocol.InsertRemembers | src/conversation/queues.rs:54-80 | what was inserted last is remembered |
| Protocol.WindowKeepsNewest | src/conversation/queues.rs:54-80 | after any number of new items the window holds the newest of them, in order, as many as fit |
| MlsGroup.FirstBlankIsLeftmost | src/mls_crypto/service.rs:313-322 | an Add is seated on the leftmost blank leaf, or the tree is full |
| MlsGroup.DeltaTurnsOldIntoNew | src/mls_crypto/service.rs:295-322 | old seats minus the delta's removals plus its additions are the new seats; a leaf seated before counts as added only if its occupant was removed; the removals are the committed Removes |
| MlsGroup.MembersHas | src/mls_crypto/service.rs:187-193 | the member list names exactly the seated leaves |
| MlsGroup.MembersDistinct | src/mls_crypto/service.rs:187-193 | and names each once |
| MlsGroup.MembersAscend | src/mls_crypto/service.rs:187-193 | in the order of their leaves |
| Seating.ValidCommitSeatsEverybody | src/mls_crypto/service.rs:295-322 | a valid commit changes the number of seats by exactly what it says, seats everybody it adds left of every blank leaf, keeps its committer and never seats a key twice |
| MlsGroup.MlsService.MergeOwnCommit | src/mls_crypto/service.rs:278-290 | merging our own commit moves the group by it, empties the own slot and reports the delta; with nothing pending nothing moves |
| MlsGroup.MlsService.StageRemoteCommit | src/mls_crypto/service.rs:354-469 | staging touches neither the group nor our own commit and fills the staged slot only on success |
| MlsGroup.MlsService.MergeStagedCommit | src/mls_crypto/service.rs:473-486 | merging the staged commit moves the group by it and empties that slot only |
| StewardLists.PoolOrderIrrelevant | src/steward_list/list.rs:109-158 | generation and validation give the same result for every ordering of the pool, errors included |
| StewardLists.ValidateAcceptsExactlyCanonical | src/steward_list/list.rs:137-158 | for a non-empty pool generation succeeds and validation accepts exactly the generated list |
| StewardLists.ReinstallReproduces | src/steward_list/service.rs:240-257 | rebuilding a list from its own members never fails and gives the same list |
| StewardLists.FourPathsOneList | src/consensus/handle_outcome.rs:196-210 | proposer, voter, installer and joiner end up with one list |
| StewardLists.CanonicalSurvivesDepartures | src/steward_list/list.rs:137-158 | over a smaller pool the old list still passes exactly if all its stewards remain |
| StewardLists.CanonicalIsWholePool | src/steward_list/list.rs:55-73 | a pool within the upper bound is listed whole |
| StewardLists.ListTakesLowestHashes | src/steward_list/list.rs:248-271 | a list holds as many members as fit, the lowest hashes first, ties by id, and nobody left out hashes below anybody listed |
| StewardLists.GenerateAcceptsSizes | src/steward_list/list.rs:55-135 | a size is accepted exactly between the bounds, or as the whole of a smaller pool |
| StewardLists.StewardFrom | src/steward_list/list.rs:182-202 | the rotation loop returns the first eligible member at or after the epoch's slot, going round once |
| StewardLists.StewardFoundIff | src/steward_list/list.rs:163-202 | an eligible listed steward is found exactly if the list covers the epoch and names somebody eligible |
| StewardLists.BackupFoundIff | src/steward_list/list.rs:169-180 | a backup exists exactly if two eligible members are listed, and differs from the epoch steward |
| StewardLists.BackupTakesOver | src/steward_list/list.rs:169-180 | dropping the epoch steward makes the backup the new one |
| StewardLists.EachServesOneEpoch | src/steward_list/list.rs:163-210 | with everybody eligible each listed member serves exactly one epoch of the span |
| StewardLists.SameProposerEverywhere | src/steward_list/service.rs:213-236 | the proposer of a round does not depend on pool order |
| StewardLists.AuthorityMeaning | src/steward_list/service.rs:213-236 | the authority sequence holds every eligible candidate once and nobody else |
| StewardLists.AuthorityOrder | src/steward_list/service.rs:213-236 | listed candidates come first, in the order of the list, then the others by ascending id |
| StewardLists.AuthorityVisitsEachOnce | src/steward_list/service.rs:213-236 | any stretch of as many rounds as candidates gives each of them authority exactly once |
| StewardLists.RoundZeroCanDiffer | src/steward_list/service.rs:199-236 | a list whose only steward is no longer eligible: round 0 names a pool member, the classic proposer is nobody |
| StewardLists.RoundZeroIsElectionProposerIff | src/steward_list/service.rs:199-236 | round 0 names the classic election proposer exactly if the list names somebody eligible or nobody is eligible at all |
| StewardLists.ProposalPassesEveryVoter | src/steward_list/service.rs:281-317 | proposing never errors, a proposal passes every voter's check and installs as sent, and no second node proposes in that round |
| StewardLists.ProposesIff | src/conversation/steward.rs:385-470 | a node proposes exactly if its list is spent or it is in recovery, and it is the one to propose; what it proposes is the list everybody computes |
| StewardLists.StewardListService.InstallList | src/steward_list/service.rs:240-257 | installs the generated list, or keeps the old one on an error |
| StewardLists.StewardListService.BumpRetry | src/steward_list/service.rs:321-323 | the retry round saturates at 32 bits |
| PeerScoring.ReportIsNetChange | src/peer_scoring/service.rs:70-108 | a batch reports exactly the members whose score ended up different, once each, with true before and after values |
| PeerScoring.EventWeights | src/peer_scoring/types.rs:46-66 | what each event is worth to the member it names; nobody else moves and nobody new is tracked |
| PeerScoring.BatchesStayInRange | src/peer_scoring/service.rs:70-110 | scores stay within 64 bits through every batch |
| PeerScoring.MentionedMeaning | src/peer_scoring/service.rs:70-108 | the members a batch touches are the tracked ones it names, once each |
| PeerScoring.PeerScoringService.ApplyOps | src/peer_scoring/service.rs:70-108 | the batch loop ends with the op-by-op saturating table and reports net changes in first-touch order |
| PeerScoring.PeerScoringService.Snapshot | src/peer_scoring/service.rs:141-151 | lists exactly the members away from the default, once each |
| PeerScoring.SnapshotRebuildsTable | src/conversation/inbound.rs:650-666 | adopting the sender's default and then its snapshot rebuilds the sender's table and reports exactly the listed members |
| PeerScoring.PeerScoringService.ApplySnapshot | src/peer_scoring/service.rs:116-137 | the snapshot loop adopts every entry in order and reports what moved |
| PeerScoring.PeerScoringService.SetDefaultScore | src/peer_scoring/service.rs:193-207 | moves exactly the members on the old default to the new one |
| CommitBuffer.AddKeepsHashesDistinct | src/commit_round/buffer.rs:26-56 | additions keep stored hashes true and pairwise distinct, keep the cap, and only append |
| CommitBuffer.CommitRoundBuffer.Add | src/commit_round/buffer.rs:26-56 | another epoch starts afresh; duplicates and candidates over the cap are refused |
| CommitBuffer.CommitRoundBuffer.Take | src/commit_round/buffer.rs:84-89 | hands over the epoch's candidates and leaves a stale round where it is |
| Queues.ConversationQueues.ApplyMembershipDeltaBookkeeping | src/conversation/queues.rs:195-214 | departed members lose join epoch and queued removals, joiners are stamped, member by member |
| Queues.ConversationQueues.StashEarlyCandidate | src/conversation/queues.rs:419-429 | drops other epochs, refuses a known commit and a full stash |
| Queues.ConversationQueues.TakeEarlyCandidates | src/conversation/queues.rs:433-439 | hands over the epoch's stash in order and empties it |
| Queues.ConversationQueues.DrainApprovedProposals | src/conversation/queues.rs:308-313 | empties the approved queue and returns it in arrival order |
| Queues.InsertMeaning | src/conversation/queues.rs:292-302 | an approval under an unknown id goes to the end; under a known one it keeps the place and takes the new request |
| Consensus.ApplyConsensusResult | src/consensus/apply_result.rs:64-174 | classifies a resolved vote and changes queue and urgent target accordingly, deduplicating removals and invites |
| Consensus.FollowUpMeaning | src/consensus/apply_result.rs:64-190 | what a decision asks for next, exactly, for every kind of request |
| Consensus.OutcomeKeepsHygiene | src/consensus/apply_result.rs:64-174 | a well-formed vote appends at most one entry, approves exactly the change it stands for and keeps the queue clean |
| Consensus.CleanIffWellFormed | src/consensus/apply_result.rs:117-158 | a decision leaves the queue clean exactly if it was a rejection or its request was well-formed; an accepted malformed request is appended |
| Consensus.UrgencyDependsOnOrder | src/consensus/apply_result.rs:101-152 | of a ban and a below-threshold vote on one member, the vote marks it urgent only when it resolves first |
| Consensus.LaterUrgencyWins | src/consensus/apply_result.rs:145-152 | of two below-threshold votes on different members the later one decides who is urgent |
| Urgency.UrgencyIsOrderFreeIff | src/consensus/apply_result.rs:101-152 | all orders of an epoch's votes agree on the urgent target exactly if at most one member not yet queued has a below-threshold vote and no other vote removes it |
| Urgency.RunUrgent | src/consensus/apply_result.rs:145-152 | the urgent target after an epoch is that of the last below-threshold vote that found its member not queued |
| Urgency.UrgencySplitsQueues | src/commit_round/apply.rs:296-304 | after the same commit a marked member keeps its queue and an unmarked one drains it; their counts agree exactly if only finished removals were queued |
| Consensus.RemovedIsFiltered | src/conversation/queues.rs:329-332 | dropping removals keeps the rest of the queue and its cleanliness |
| Outcomes.HandleQueueOutcome | src/consensus/handle_outcome.rs:52-93 | a repeated outcome is dropped; a new one is recorded, applied, and followed by the replay of the stash |
| Outcomes.OutcomeEffect | src/consensus/handle_outcome.rs:84-93 | the same with the replay: clean queue, one change more, nothing else touched |
| Outcomes.ApprovedQueueHygiene | src/consensus/apply_result.rs:64-174 | over every run: one removal per member, one invite per key, only membership changes, arrival order, an urgent target always queued |
| Outcomes.RecentIsRemembered | src/conversation/queues.rs:54-80 | over any run the last 256 outcomes and the last merged commits are remembered |
| Outcomes.ValidElectionInstalls | src/consensus/handle_outcome.rs:196-210 | a list that checks out always installs, member for member |
| Outcomes.CommitKeepsHygiene | src/commit_round/apply.rs:289-305 | a commit keeps the queue clean and the survivors in arrival order |
| CommitValidation.PriorityIsStrictOnBuffers | src/commit_round/validate.rs:242-268 | on any buffer built by additions the comparator is a strict total order |
| CommitValidation.RankIgnoresArrivalOrder | src/commit_round/validate.rs:217-235 | the ranking is the same for every permutation of the buffer |
| CommitValidation.RankedIff | src/commit_round/validate.rs:217-235 | a round ranks exactly the candidates with as many proposals as the queue holds invites and removals, or in a subset round no more |
| CommitValidation.RankHeadIsBest | src/commit_round/validate.rs:237-268 | what ranks first: no larger batch is around; then the epoch steward's; then no id, and then no hash, that falls below the winner's reading from the left |
| CommitValidation.RejectionBlamesSigner | src/commit_round/validate.rs:40-98 | a rejection fines exactly the member that signed the bundle, never whoever it claims to come from, and nobody if it cannot be read |
| Duty.AcceptedIff | src/commit_round/apply.rs:207-268 | a peer's candidate is accepted exactly if it opens to a valid commit, is its committer's alone, comes from a listed member unless in recovery or without a list, and carries the approved changes |
| Duty.FaultsAreTold | src/commit_round/apply.rs:207-268 | a rejection costs the committer once, for a bundle or name that is not its own, for committing unlisted, or for the wrong changes, in that order; what does not open costs nobody |
| Duty.DutyMeaning | src/commit_round/context.rs:26-56 | the steward on duty is the first listed member from the epoch's slot on that is seated and whose removal is not queued; there is one exactly if the list covers the epoch and names such a member |
| CommitApply.FinalizeCommittedBatch | src/commit_round/apply.rs:289-305 | remembers the hash, stamps and clears members, then clears the urgent entry or drains everything |
| CommitApply.BatchOmitsRemovals | src/commit_round/apply.rs:289-305 | the batch for history never names a removal the commit carried out, so it is the whole queue exactly if there was none |
| CommitApply.ApplyLocalCandidate | src/commit_round/apply.rs:149-184 | our own commit merges unchecked, followed by the bookkeeping |
| CommitApply.ApplyIncomingCandidate | src/commit_round/apply.rs:203-268 | a peer's candidate merges exactly if it passes the ladder; rejected, it leaves group, own commit and queues as they were |
| CommitApply.TryInPriorityOrder | src/commit_round/apply.rs:45-98 | the loop stops at the first candidate that applies, having collected the penalties of all before it |
| CommitApply.ApplyInPriorityOrder | src/commit_round/apply.rs:45-98 | the first acceptable candidate in rank order wins; without one only our pending commit is dropped |
| CommitApply.RecordWinnerScores | src/commit_round/apply.rs:105-143 | rewards the committer, fines an absent steward who is neither the committer nor us, notes the rest |
| Duty.RoundTells | src/commit_round/apply.rs:47-143 | exactly what a round tells the scores: penalties before the winner, the committer's reward, the fine of the steward on duty unless it committed or is us, a note on everything behind |
| CommitApply.FinalizeCommitRound | src/commit_round/round.rs:150-214 | takes, ranks and applies; an empty round discards our pending commit |
| CommitApply.RoundMergesBestAcceptable | src/commit_round/apply.rs:45-98 | a commit is applied exactly if an acceptable candidate exists, and it ranks before every other acceptable one |
| CommitApply.RoundEmptiesSlots | src/commit_round/round.rs:200-214 | afterwards both commit slots and the buffer are empty and the epoch has moved by one exactly if a commit was applied |
| CandidateIntake.ReceiveCommitCandidate | src/commit_round/round.rs:63-131 | checks in order, then stashes while nothing is approved or buffers |
| CandidateIntake.ReceptionMeaning | src/commit_round/round.rs:63-131 | exactly when a candidate comes to be buffered or stashed, and that nothing else changes |
| CandidateIntake.ReplayEarlyCandidates | src/commit_round/round.rs:137-146 | runs the stash through reception again |
| CandidateIntake.CollectInputs | src/conversation/handle.rs:308-348 | walks the first entries of the queue in arrival order and collects what may be committed, stopping at a malformed one |
| CandidateIntake.BuildLocalCandidate | src/conversation/handle.rs:265-400 | the gates in order, then mint, keep as pending, and buffer |
| CandidateIntake.MintedExactly | src/conversation/handle.rs:319-348 | a minted batch carries exactly the approved changes that would still do something, restricted to the urgent target if there is one |
| CandidateIntake.MintsIff | src/conversation/handle.rs:265-400 | exactly when a member mints a candidate |
| CandidateIntake.MintsNoMoreThanLimit | src/conversation/handle.rs:308-348 | and it holds no more changes than the batch limit |
| CandidateIntake.MintKeepsLocalOk | src/conversation/handle.rs:362-392 | the buffered own candidate is the pending commit, by us, one proposal per change, all approved |
| CandidateIntake.MintFailsIff | src/conversation/handle.rs:288-347 | past the gates minting fails exactly if a governance entry is queued or an unmintable one sits inside the batch |
| CandidateIntake.MalformedRequestStallsMints | src/conversation/handle.rs:288-347 | once an accepted malformed request fits into the batch nobody who may commit can mint |
| CandidateIntake.MintSurvivesStrictFilterIff | src/conversation/handle.rs:308-348 | a minted batch passes the strict count filter exactly if the queue fits into it and every entry contributes |
| Agreement.OwnActionsExact | src/commit_round/validate.rs:217-235 | an own candidate that passes the strict filter carries exactly the approved changes |
| Agreement.PeerAcceptsOwnCandidateIff | src/commit_round/validate.rs:111-149 | in any round a peer accepts what we merge unchecked exactly if we are authorized and carry as many changes as are approved |
| Agreement.OwnPathAgreesWithLadder | src/commit_round/apply.rs:145-268 | in any round both paths give the same verdict on a candidate exactly unless it is our own and would not pass at a peer; what both accept is the same commit |
| Agreement.StrictOwnPassesIff | src/commit_round/validate.rs:226-230 | an own candidate that survives the strict count filter passes at peers exactly if the list still names us or there is none |
| Agreement.MergedActionsAreApproved | src/commit_round/validate.rs:111-149 | whatever merges in a strict round carries exactly the approved changes |
| Agreement.SameRanking | src/commit_round/validate.rs:217-268 | in any round equal message sets rank alike, whatever their order and whoever minted what |
| Agreement.SameWinner | src/commit_round/apply.rs:45-98 | two matched members pick the same winner when neither merges a commit of its own that would not pass at a peer |
| Agreement.RoundAgreementIff | src/commit_round/apply.rs:45-98 | in any round, strict, subset or recovery, they end in the same group exactly under that condition |
| Agreement.RoundAgreement | src/commit_round/apply.rs:45-98 | in particular if every own candidate in the ranking is by an authorized member and carries as many changes as are approved |
| Agreement.StrictRoundAgreement | src/commit_round/apply.rs:45-98 | and in a strict round while the list, if any, names whoever minted |
| Agreement.StrictBestPassesIff | src/commit_round/apply.rs:145-184 | in a strict round the condition fails exactly if the merged commit is our own and the list no longer names us |
| Agreement.LoneCandidateAgreesIff | src/commit_round/apply.rs:45-98 | a lone own candidate merges here, and at a peer exactly if it passes there |
| Agreement.DelistedMinterSplits | src/commit_round/apply.rs:145-184 | in a strict round a complete lone own candidate of a member the list no longer names merges here and is dropped there |
| Agreement.SubsetRoundSplits | src/commit_round/validate.rs:226-230 | in a subset round a lone own candidate with too few changes merges here and is dropped there |
| Examples.SubsetRoundSplitExists | src/commit_round/validate.rs:226-230 | such a round is reached: two removals voted, batch limit one, a listed minter, a peer that received the very candidate |
| Delisting.StrictRoundSplitExists | src/commit_round/apply.rs:145-268 | two members alike, the same votes in the same order, the same candidate, a strict round: the list voted through after the mint drops the minter, which merges while its peer does not |
| Leaving.LeaveIff | src/commit_round/apply.rs:145-268 | in any round a seated member is told to leave exactly if the merged commit removes it, or is its own while its removal is approved |
| Leaving.StrictRoundLeavesIff | src/commit_round/apply.rs:145-268 | in a strict round exactly if the commit removes it |
| Leaving.LeavesWhenRemoved | src/commit_round/apply.rs:145-268 | over every run a member is seated until it is told to leave and is told when it is removed; over runs of strict rounds only then |
| Leaving.SelectionMeansRemoved | src/conversation/inbound.rs:508-529 | in a run of strict rounds a conversation rests in selection only after a commit removed the member |
| Leaving.KeysNeverCollide | src/mls_crypto/service.rs:295-322 | over every run no key is seated twice |
| Examples.LeavesWhileSeated | src/commit_round/apply.rs:145-184 | a run in which a member merges its own commit, is told to leave, and is still seated |
| Fairness.HonestStewardNeverFined | src/commit_round/apply.rs:100-143 | in any round a listed steward whose commit carries what was approved, and that signed nothing else at hand, never loses score at another member, picked or not |
| Confluence.ReceiveEffect | src/commit_round/round.rs:63-131 | receiving adds an admissible candidate to what is known and changes nothing otherwise |
| Confluence.ReplayEffect | src/commit_round/round.rs:137-146 | replaying loses and invents nothing |
| Confluence.RunEffect | src/consensus/handle_outcome.rs:84-93 | over an epoch, approved changes and known candidates grow by what the events bring, in any order |
| Confluence.ListVoteEffect | src/consensus/handle_outcome.rs:84-93 | a vote on a steward list approves no change and makes nothing known |
| Confluence.KnownSplits | src/conversation/queues.rs:419-439 | known candidates are all buffered once something is approved and all stashed before |
| Confluence.ArrivalOrderConfluence | src/commit_round/round.rs:63-146 | interleavings of the same votes and receipts end with the same approved changes, buffer and stash |
| Nodes.ReconcileInstallsSettled | src/conversation/steward.rs:91-116 | a spent list is replaced by all settled members, in the order everybody computes, exactly if there are some and at most sn_max of them |
| Nodes.NothingUrgent | src/consensus/apply_result.rs:145-152 | only a below-threshold emergency sets an urgent target |
| Lockstep.RoundWithWinner | src/commit_round/apply.rs:289-305 | what a merged commit leaves behind: group, queues, join epochs, memory, reconciled list |
| Lockstep.RoundWithoutWinner | src/commit_round/round.rs:200-214 | a round without a winner costs only the buffer and our pending commit |
| Lockstep.RoundKeepsAlike | src/conversation/steward.rs:91-116 | members alike before the end of a round are alike after it, when neither merges a commit of its own that would not pass at a peer |
| Lockstep.AlikeRoundAgreesIff | src/commit_round/apply.rs:45-98 | and they are in the same group after it exactly then |
| Lockstep.StewardsFollowListEvents | src/consensus/handle_outcome.rs:186-242 | over an epoch the steward list depends only on the votes on lists and the silent windows, in their order, whatever else goes on |
| Lockstep.LockstepConvergence | src/commit_round/round.rs:150-195 | members that start alike stay alike over any number of rounds with the same votes and candidates, elections inside an epoch among them, when nobody merges a commit that would not pass at a peer |
| Founding.FoundersStartAlike | src/conversation/construct.rs:82-146 | a seeded creator and any founding member with the same commit memory that takes its sync start alike, and the sync passes and installs |
| Projection.NormalRunIsNodeRun | src/conversation/poll.rs:126-326 | a conversation that stays out of recovery and takes no sync over is a member of the lockstep runs: its rounds and the events since the last one |
| Projection.ConversationsStayAlike | src/conversation/poll.rs:126-326 | two such conversations that start alike and whose epochs match are alike whenever both have ended a round |
| Membership.IdsAfterMerge | src/mls_crypto/service.rs:295-322 | members after a merge are the old ones minus the departed plus the joined |
| Membership.MergeOnlyUnsettlesDeparted | src/conversation/queues.rs:195-233 | a merge takes only departed members out of the settled set of an earlier epoch, recycled leaves included |
| Membership.CloseRoundMembership | src/commit_round/apply.rs:160-164 | however a round closes, in recovery or not, its commit is all that moves seats, join epochs and scores |
| Membership.RetrospectiveSettledness | src/conversation/queues.rs:195-233 | over every run, recovery included, the settled set of a past epoch, worked out later, is the old one minus everyone departed since |
| Membership.AdoptionKeepsKeysIff | src/conversation/inbound.rs:630-668 | taking a sync over keeps the score table on the seats exactly if everybody it lists is seated |
| Membership.StrangerGetsScore | src/conversation/inbound.rs:692-768 | a sync that is taken is still taken when it lists a stranger, who is then tracked |
| Membership.ScoresFollowSeats | src/conversation/inbound.rs:468-488 | over every run every seated member has a score; and nobody else has, as long as the syncs that are taken list seated members |
| Membership.ScoresStayValid | src/conversation/inbound.rs:755-768 | over every run the default score stays positive and above the threshold |
| Membership.NewcomersStartFresh | src/conversation/inbound.rs:468-488 | whoever takes a leaf starts at the default score and with a fresh join epoch, and is settled in every later epoch but not before |
| Membership.GenesisFollowsSeats | src/conversation/construct.rs:82-146 | the same from genesis, seeded or not |
| SyncMessages.OnConversationSync | src/conversation/inbound.rs:564-668 | a sync is adopted exactly if it is wanted and passes the check; then list, retries, threshold, default and scores are the sender's |
| SyncRules.SyncTakenIff | src/conversation/inbound.rs:564-586 | a sync is taken exactly if there is no list, or the list does not cover the epoch and the sync is of a later election, and what it says holds together |
| SyncRules.SyncTaken | src/conversation/inbound.rs:630-668 | what is held afterwards: the list it names, its bounds, retries, default and threshold, the scores it lists, and the new default for everybody on the old one |
| SyncRules.SyncRebuildsScores | src/conversation/steward.rs:275-340 | a joiner that tracks the sender's members ends up with the sender's scores, default and threshold |
| SyncRules.SyncsReplaceOnlySpentLists | src/conversation/inbound.rs:573-580 | anywhere in a run a sync moves the list and the scores at most, and those only if the list may give way; a list that covers the epoch survives |
| SyncRules.LiveListSurvives | src/conversation/steward.rs:91-116 | over every run without an accepted list vote, a list that covers the first and the last epoch is in force all along |
| SyncMessages.AcceptedSyncInstalls | src/conversation/inbound.rs:630-645 | an accepted sync never fails to install and gives the list that was sent |
| SyncMessages.JoinerRebuildsPool | src/conversation/inbound.rs:718-723 | the joiner's pool is the sender's settled set of the election epoch |
| ConversationSync.SyncPassesIff | src/conversation/inbound.rs:704-735 | the sync of a list elected at or before some state passes later exactly if no listed steward has left since |
| ConversationSync.SyncPassesWithoutDepartures | src/conversation/steward.rs:299-308 | in particular if nobody settled at the election has left |
| ListsInForce.ElectGivesElected | src/conversation/steward.rs:360-377 | a list vote that passes, dated no later than now, installs the list of an election on record |
| ListsInForce.ReconcileGivesElected | src/conversation/steward.rs:91-116 | reconciling keeps the list or installs that of an election held now |
| ListsInForce.AdoptGivesElected | src/conversation/inbound.rs:630-645 | so does a sync that agrees with our record of who was settled |
| ListsInForce.ListDatedAheadInstalls | src/conversation/steward.rs:360-377 | a list dated ahead installs, covers nothing yet, and no joiner takes it |
| ListsInForce.ListInForceIsElected | src/consensus/handle_outcome.rs:186-242 | over every run the list in force was, when it was installed, that of an election on record |
| ListsInForce.SentSyncPassesIff | src/conversation/inbound.rs:704-735 | over every run the sync a member sends passes exactly if no steward on its list has left since it was installed |
| Founding.GenesisSyncPassesIff | src/conversation/construct.rs:82-146 | from genesis on there is always a list, and that holds of its sync |
| Examples.SyncRefusedThoughStewardsRemain | src/conversation/inbound.rs:704-735 | a run in which one listed steward leaves, the list stays in force, others are still there, and the sync is refused |
| Examples.StrangerIsTracked | src/conversation/inbound.rs:692-768 | a sync is taken that puts somebody without a seat into the score table |
| Examples.BatchOmitsTheRemoval | src/commit_round/apply.rs:289-305 | a merged commit that carries out the only approved change, with an empty batch |
| Lifecycle.ConversationStateMachine.StartFreezing | src/conversation/state_machine.rs:74-82 | legal from Working and Reelection only |
| Lifecycle.ConversationStateMachine.ReopenFreezing | src/conversation/state_machine.rs:96-103 | legal from Selection only |
| ConversationModel.NormalRoundIsEndRound | src/conversation/poll.rs:184-326 | outside recovery the round a conversation closes is the round a member of the lockstep runs ends |
| ConversationModel.CloseRoundOk | src/conversation/poll.rs:184-326 | however a round ends the conversation comes to rest properly |
| Transitions.RoundGoesOn | src/conversation/poll.rs:136-195 | until its window has passed a round goes on, with a late mint at most |
| Transitions.RoundWithoutCommit | src/conversation/poll.rs:257-326 | a round without a commit ends in work if nothing is approved, else in reelection, or in recovery in another round timed from now until the stop-line |
| Transitions.RoundWithCommit | src/conversation/poll.rs:233-256 | a round with a commit ends recovery; the member leaves, or works on with the retry ladder at its start |
| Transitions.RoundThatFails | src/conversation/poll.rs:328-340 | a failing finalization costs the buffered candidates and blames nobody |
| PhaseMoves.MissedRoundCosts | src/conversation/poll.rs:286-303 | approved work left lying outside recovery costs the steward on duty 40, unless that is us; nobody else pays |
| PhaseMoves.InactivityMoves | src/conversation/poll.rs:562-603 | approved work starts a timer and, its window over, a freeze in which listed members mint; an election in flight holds it |
| PhaseMoves.SilenceMoves | src/conversation/poll.rs:609-642 | a full silent window in reelection costs a retry round |
| PhaseMoves.ArrivalMoves | src/conversation/inbound.rs:531-555 | a newly buffered candidate starts a freeze from work or reelection |
| PhaseMoves.RecoveryMovesIff | src/conversation/poll.rs:233-357 | exactly which steps open recovery and which end it |
| PhaseMoves.ReelectionStartsIff | src/conversation/poll.rs:276-284 | exactly which steps start a reelection |
| PhaseMoves.RetryRoundCountsFailures | src/consensus/handle_outcome.rs:100-102 | over every run the retry round is the number of lists that failed since the last commit |
| VoteEffects.VoteCountsOnce | src/consensus/handle_outcome.rs:28-82 | a remembered outcome does nothing a second time |
| VoteEffects.ListVotePasses | src/consensus/handle_outcome.rs:186-242 | an accepted list that checks out is in force, ends recovery and a reelection; one that does not moves nothing |
| VoteEffects.ListVoteFails | src/consensus/handle_outcome.rs:100-102 | a rejected list costs a retry round |
| VoteEffects.DeadlockOpensRecovery | src/consensus/handle_outcome.rs:103-109 | an accepted Deadlock opens recovery with fresh counters and a freeze |
| VoteEffects.OtherVotes | src/consensus/handle_outcome.rs:110-135 | every other vote leaves recovery and the list alone; an urgent removal freezes, any other emergency with evidence ends a reelection |
| VoteEffects.VoteMovesScores | src/peer_scoring/helpers.rs:42-71 | an emergency that passes is worth 20 to its creator and then costs its target the fine; one that fails costs its creator 50; nobody else moves |
| ConversationModel.LifecycleSafety | src/conversation/poll.rs:126-357 | the lifecycle invariants hold after every step of every run: selection is never at rest unless a round said that we are out |
| ConversationModel.RoundsCountMisses | src/conversation/poll.rs:345-357 | the recovery counter counts the rounds without a commit |
| ConversationModel.RecoveryIsBounded | src/conversation/poll.rs:257-357 | each recovery sees at most m rounds without a commit, its end is announced exactly on the m-th and once, and never with m = 0 |
| Conversation.Conversation.EnterFreezing | src/conversation/handle.rs:406-437 | a freeze starts timed, and stewards mint |
| Conversation.Conversation.Advance | src/conversation/poll.rs:126-326 | the freeze drive of a poll; like every drive it leaves the object within the lifecycle invariants |
| Conversation.Conversation.SelectAndFinalize | src/conversation/poll.rs:167-326 | selection, finalization and every way a round can end |
| Conversation.Conversation.OnConversationUpdated | src/conversation/inbound.rs:444-488 | after a commit: retries reset, working again, scores and list brought up to date |
| Conversation.Conversation.ReconcileStewardList | src/conversation/steward.rs:91-116 | keeps a live list, installs the settled members when no vote is needed |
| Conversation.Conversation.RetryOrExhaustRecovery | src/conversation/poll.rs:345-357 | counts a missed recovery round and gives up at the stop-line |
| Conversation.Conversation.RecoverFromFinalizeError | src/conversation/poll.rs:332-340 | a local failure blames nobody: retry in recovery, work on otherwise |
| Conversation.Conversation.MaybeAutoCommitRecovery | src/conversation/poll.rs:364-385 | mints once after the grace if we hold no candidate |
| Conversation.Conversation.CommitByHand | src/conversation/handle.rs:468-481 | committing by hand is allowed in recovery only |
| Conversation.Conversation.StartFreezeOnInactivity | src/conversation/poll.rs:562-603 | self-anchors over approved work, freezes when the window has passed, waits while an election runs |
| Conversation.Conversation.DriveReelectionRetry | src/conversation/poll.rs:609-642 | a silent window in Reelection costs a round |
| Conversation.Conversation.HandleConsensusOutcome | src/consensus/handle_outcome.rs:28-141 | the whole handling of an outcome, follow-up and scores included |
| Conversation.Conversation.OnElectionAccepted | src/consensus/handle_outcome.rs:186-242 | a list that checks out is installed, closes recovery and ends a reelection |
| Conversation.Conversation.OnCommitCandidate | src/conversation/inbound.rs:531-555 | a buffered candidate starts a round |
| Conversation.Conversation.OnSyncReceived | src/conversation/inbound.rs:564-668 | a sync moves the steward list and the scores, or nothing |

## Left out

- Lockstep.LockstepConvergence: covers rounds outside recovery in which nobody merges a commit that would not pass at a peer, which is exact (`Lockstep.AlikeRoundAgreesIff`), and votes other than below-threshold removals (`Urgency.UrgencySplitsQueues`); votes on lists and silent windows come in the same order at both members, hashes are collision-free on the candidates of a round and those are no more than the members.
- Founding.FoundersStartAlike: both members are given the same commit memory, because the sync does not carry its size.
- Outcomes.ApprovedQueueHygiene: asks for distinct ids and well-formed requests, because the queue takes malformed ones as they are.
- SyncMessages.OnConversationSync: the timing block is not modelled, so taking a sync over changes no window and a run keeps the windows it started with; the liveness default and the update age are settings nothing modelled here reads.
- Founding.GenesisSyncPassesIff: list votes are dated no later than the epoch they resolve in (`ListsInForce.ListDatedAheadInstalls` says why), and a sync that is taken agrees with the member's own record of who was settled.
- Leaving.LeavesWhenRemoved: like Leaving.KeysNeverCollide, it asks that votes come under fresh ids and that the library keeps its promise when it mints.
- Queues.ConversationQueues.ApplyMembershipDeltaBookkeeping: the pending-update buffer is not modelled, so its clearing is not either.
- Conversation.Conversation.HandleConsensusOutcome: the vote opened after a steward's removal and the removal of a pending update are left out; the first comes back as an outcome, the second touches nothing modelled.
- ConversationModel.LifecycleSafety: recovery opens by an accepted Deadlock only; an integrator that calls the recovery switches directly is outside it.
- ConversationModel.FinalizeFailed: a failing finalization is an input and costs the buffered candidates, nothing else.
- CandidateIntake.BuildLocalCandidate: whether the library mints, and what, is an input; it has no answer while a commit of ours is pending.
- Membership.Seed: the genesis commit is an input carrying Adds only.
- OpenMLS itself, signatures, encryption, key packages, protobuf: foreign code behind `World`.
- The consensus library: quorum, votes, sessions, timeouts. Outcomes and "an election is in flight" are inputs.
- StewardLists.ProposalPassesEveryVoter: what a node would propose is modelled, the vote it opens is not; the calls that only open a vote (after a removal, after a reelection, the Deadlock request) appear through their outcomes.
- `poll` as one call: each of its drives is a step of its own, and a run may take them in any order, the order of `poll` among them.
- The index of proposals in flight, active emergencies, the pending-update buffer and its expiry: nothing modelled here reads them.
- Events, outbound messages, welcomes, logging, labels, `next_wakeup_in`: they carry no state of the protocol. The announcement that recovery gave up is kept as a counter.
- Storage failures, except as a failing finalization; overflow of 64-bit epochs and of the 32-bit round counter of an unlimited recovery.
- The order in which a hash map lists departed and joined members: the loops take any order.
- Chat, ban requests, sponsored joins, requests for a sync and takeovers, configuration checks: single-branch code.
- `remove_approved_proposal` and `reject_all_approved_proposals`: nothing in the library calls them.
