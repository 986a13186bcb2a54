# The sanction chain and its agents, verified

This project models the `x/sanction` keeper of the chain as one state machine and proves
what its handlers keep over whole runs. Four smaller components of the agents stand beside it.

**The keeper.** A state holds agents, leases, risk reports, cases with their frozen voter
snapshots, votes, active tx sanctions, freezes, execution records, transfer receipts, the
settlement ledger, reviews, parameters, authority, bank balances and the block height, with the
secondary indexes as tables of their own (`Store`). `Handlers` says for each message which
error its checks give first and which state it leaves when there is none; `Chain` puts messages
into transactions with the lease check before and the receipt recording after them, and
transactions, registry syncs and height changes into runs. On that rest the theorems:
`CaseTheorems` and `CaseChains` (frozen electorates, statuses, owners of effects, replacement
chains), `Events` and `Ownership` (runs message by message, and when an effect stays in force),
`Takeover` (runs in which it does not), `Acceptance` and `Outcomes` (when each message is accepted,
stated without the handlers, and what it then leaves), `Reviews`, `Progress`, `Ledger`, `Receipts` and
`Conservation` (payments, receipts and settlement), `Leases` (fencing), `Registry` (staking sync),
`GenesisMeaning` and `Closure` (every reachable state exports a valid genesis that loads back).

**The same, step by step.** `KeeperStore`, `Voting`, `Execution`, `MsgServer`, `ValidatorSync`,
`GenesisChecks`, `GenesisKeeper` and `App` are the code in its own form: methods that loop,
return early and write the store piece by piece. Each is proved to give exactly the specified
error and the specified new state, so the theorems about runs are theorems about these methods.

**Beside the keeper.** `Pool` and `PoolClient` choose a common checkpoint by agreement of RPC
endpoints; `PoolMeaning` says on their answers alone what that amounts to. `Requests` sends one
signed transaction per request id across crashes. `Journal` keeps an index of active rows. `Rounds`
names the rounds of an automatic case and walks them, and `Renewal` carries what the daemon decides
there over to the chain at a later height.

## Reading the model

- A handler that returns an error leaves no writes: the SDK drops the transaction's cache.
  The handler methods show what would be written (an EXPIRED mark, for one); `App.DeliverTransaction`
  puts the earlier store back.
- Go strings are byte strings: one `char` stands for one byte, and `<` on strings is bytewise.
- Integers have their Go widths where it matters: a voting deadline wraps modulo 2^64, enumerations
  keep any 32-bit code, percentages are 64-bit.
- `Env` collects what the module calls without defining it: address and key codecs, signature checks,
  coin and integer texts, blank text, hashes. Nothing is assumed of them except where a lemma says so
  (`CoinLaw` and `IntLaw`: the texts of a positive coin and of a positive integer parse back). A freeze is found under the canonical text of
  an account, a case target under the text that was submitted.
- Hashes are 32 bytes and free of collisions, the hash of a committed transaction never repeats,
  the ante handler has checked the signers of every message (`StepOk`). A pair of ids stands for the
  composite key of a vote, which is right exactly when no case id goes on with NUL after another one
  (`Keys.VotePrefixExact`); ids without NUL never do.
- The bank is a table of balances and a list of moves. Each send or settlement comes with a flag for
  refusals of the bank that have other reasons than a lack of funds. Fees and account sequences are
  not part of the chain model.
- A fresh chain (`Fresh`) has no cases, votes, effects or execution records; agents, leases, reports,
  receipts, settlements and reviews may exist. Settlement, conservation, fencing and genesis closure
  need no fresh chain.
- An RPC endpoint is what it answers in one selection, possibly other things at each question; ages
  and timeouts are flags of the answer. An honest endpoint may fail to answer.

## Where the code differs from what it seems to promise

- An executed freeze need not stay in force. The freeze table is looked up only when a case opens, so a
  second case opened in time takes the freeze over when it executes, and its revocation lifts it while
  the first case stays executed. Block cases lose their sanction the same way on approval. The exact
  conditions are in `Ownership.OwnershipExact`, accepted runs in `Takeover`.
- A case target is stored as submitted, a freeze is looked up under canonical text. A freeze under another
  spelling stops no send of its account unless the canonical text is frozen too
  (`Ownership.FreezeStopsSends`, `Takeover.OtherSpellingStopsNothing`).
- Case ids may hold NUL, and then one vote prefix may select another case's votes (`Keys.VotePrefixClash`).
- The registry sync never compares signers. The global invariant survives it exactly when staking
  supplies fresh ones (`Registry.SyncKeepsSigners`); `Registry.SyncMayShareSigner` is an input where it fails.
- With an operator listed twice, an agent is created from the first qualifying entry while registered
  agents follow the last (`Registry.SyncMirrors`, `Registry.SyncMayUseStaleData`).
- ValidateGenesis does not look at votes. An export loses votes without a case, so the round trip holds
  exactly without them (`GenesisRoundTrip.RoundTrip`, `GenesisRoundTrip.OrphanVoteIsLost`).
- ValidateGenesis accepts an empty authority; the export then contains the configured one, which must
  be an address for the export to validate (`Closure.GenesisClosure`, `GenesisRoundTrip.EmptyAuthorityFails`).
- A quorum of 50 or less lets approval and rejection both reach it; approval is tried first
  (`Percent.QuorumExclusive`).
- The pool's refusal of a falling checkpoint is unreachable (`Pool.NeverBackwards`).
- The policy never recommends escrow, so its execution serves imported cases only
  (`Progress.EscrowIsNeverOpened`).

## Model

The results come first; the members that carry the code out step by step, against the same specification, follow from `Policy.ComputePolicyAction` on.

| member | source | states |
|---|---|---|
| `CaseTheorems.DecisionsRestOnFrozenVotes` | x/sanction/keeper/voting_snapshot.go:13-43 | In every state a fresh chain reaches, an approved or executed case has a valid snapshot, only votes signed by snapshot members, and approving power above the quorum fixed at opening; an executed revert with the unanimity flag has every member's approval of the revert |
| `CaseTheorems.SnapshotNeverMoves` | x/sanction/keeper/msg_server.go:239-257 | No later step, sync and parameter change included, alters the voters, quorum, unanimity rule or reports of a case |
| `CaseTheorems.StatusesOnlyAdvance` | x/sanction/keeper/msg_server.go:229-258 | Over every run case statuses move only along the fixed graph: approved never becomes rejected, revoked is absorbing, and no case disappears |
| `CaseTheorems.MessageEdges` | x/sanction/keeper/msg_server.go:465-492 | One accepted message moves each case along one edge of the status graph at most |
| `CaseTheorems.LateVotesChangeNothing` | x/sanction/keeper/msg_server.go:235-238 | A transaction that comes to a vote after the deadline, after whatever other messages, changes no state at all: the EXPIRED mark written before the refusal is rolled back with the rest |
| `Outcomes.VoteDecides` | x/sanction/keeper/msg_server.go:239-258 | In every state a fresh chain reaches, after an accepted vote the stored votes decide the case exactly: approved if and only if 100 times the approving power exceeds (quorum - 1) times the total power, otherwise rejected if and only if the rejecting power does so, otherwise as before; an approval of a block, and nothing else, activates the sanction |
| `Outcomes.StatusesHaveCauses` | x/sanction/keeper/msg_server.go:465-492 | Over every run, each change of status has its one cause: only an accepted opening that names the case as predecessor makes it EXPIRED, only a vote approves or rejects it, only an execution makes it EXECUTED, only a revocation REVOKED |
| `Acceptance.AcceptedExactly` | x/sanction/keeper/msg_server.go:27-441 | Every message of the module, and a bank send, is accepted if and only if its condition holds, stated on the message and the tables without the order of the checks |
| `Acceptance.OpeningExact` | x/sanction/keeper/msg_server.go:93-201 | An opening is accepted if and only if the message is well formed, every report supports the case, the action is in the allowed list in force and is the recommended one, no active sanction or freeze stands in the way, the predecessor may be replaced, and there is a proper electorate |
| `Acceptance.ReplacementExact` | x/sanction/keeper/recovery.go:12-45 | When a predecessor may be replaced: open or expired on the same payment, with older evidence, its time up, not executed, without another successor |
| `Acceptance.ElectorateExact` | x/sanction/keeper/voting_snapshot.go:13-31 | The snapshot of a new case validates if and only if some agent is eligible and the eligible ones have keys of their own and distinct signers, under an admissible quorum |
| `Acceptance.ReportExact` | x/sanction/keeper/msg_server.go:54-91 | When a risk report is accepted: new, complete, unexpired, of the sender, from an accepted source, with a valid signature if there is one |
| `Acceptance.VotingExact` | x/sanction/keeper/msg_server.go:212-237 | When a vote is accepted: a first vote, in time or on an approved revert, by the signer of a frozen voter and with its frozen key, for the action of the case |
| `Acceptance.ExecutionExact` | x/sanction/keeper/msg_server.go:270-350 | When an execution is accepted, for every action: approved, valid snapshot, not executed, primary evidence unexpired, unanimity where required, and for money a recorded unsettled payment that the recipient can pay back |
| `Acceptance.RevocationExact` | x/sanction/keeper/msg_server.go:366-388 | Who may revoke: the authority in force, in a later block than its own unused review of the case |
| `Acceptance.ReviewExact` | x/sanction/keeper/msg_server.go:404-419 | Who may review what: the authority in force, once, a case that is not revoked, with a reason and a 32-byte evidence hash |
| `Acceptance.RegistrationExact` | x/sanction/keeper/msg_server.go:27-46 | Which agents the authority may register |
| `Acceptance.ParamsExact` | x/sanction/keeper/msg_server.go:427-437 | Which parameters the authority may set |
| `Acceptance.ClaimExact` | x/sanction/keeper/lease.go:47-84 | A claim is accepted if and only if it names the current epoch of a registered signer and renews its live lease for the same holder or takes the next epoch of a dead one |
| `Acceptance.SendExact` | x/sanction/keeper/execution.go:27-38 | A bank send is accepted if and only if its coins are valid and covered and neither account is frozen |
| `Acceptance.EntryExact` | x/sanction/keeper/lease.go:98-132 | A transaction passes the lease check if and only if a claim stands alone and every other leased signer signs under the memo text of its live lease |
| `Outcomes.OpeningLeaves` | x/sanction/keeper/msg_server.go:178-201 | An accepted opening stores the case with the message, current height, deadline, rules and electorate in every field, expires the predecessor, and changes no other case or table |
| `Outcomes.ExecutionLeaves` | x/sanction/keeper/msg_server.go:301-350 | An accepted execution closes its case with its record, field by field, and has the one effect of its action: a freeze, a sanction, a settlement or none |
| `Outcomes.SettlementHash` | x/sanction/keeper/execution.go:60-97 | The record of a settlement carries the hash over kind, case, parties and coin |
| `Outcomes.ReviewLeaves` | x/sanction/keeper/msg_server.go:404-422 | An accepted review stores its record at this height and touches no case |
| `Outcomes.RevocationLeaves` | x/sanction/keeper/msg_server.go:389-393 | An accepted revocation completes its review with height and reason and revokes the case |
| `Outcomes.ReportLeaves` | x/sanction/keeper/msg_server.go:54-82 | An accepted report is stored as sent, its submitter filled in, and indexed by tx and recipient |
| `Outcomes.RegistrationLeaves` | x/sanction/keeper/msg_server.go:27-50 | A registered agent is stored as sent and found by its signer |
| `Outcomes.ClaimLeaves` | x/sanction/keeper/lease.go:66-84 | A renewal moves the end of the lease only, a grant also takes the next epoch and holder |
| `CaseTheorems.EffectsHaveOwners` | x/sanction/keeper/msg_server.go:315-332 | In every reachable state each freeze belongs to an executed freeze case on that address and each active tx sanction to a block case on that tx that reached quorum and is approved, executed or expired |
| `CaseTheorems.RevocationIsLocal` | x/sanction/keeper/msg_server.go:366-393 | In every reachable state a revocation leaves exactly the effects of all other cases, unchanged, and touches no settlement, receipt, vote, execution record, balance or other case |
| `Ownership.OwnershipExact` | x/sanction/keeper/msg_server.go:315-329 | Over every run of a fresh chain, in every state on the way: executed freeze cases own their freezes if and only if no accepted execution of a freeze case finds its target frozen already; approved and executed block cases own their sanctions if and only if no vote approves a block case whose tx an approved or executed case has sanctioned; freezes stand under canonical spellings if and only if no freeze case with another spelling is executed |
| `Ownership.MessageHolds` | x/sanction/keeper/msg_server.go:474-484 | One accepted message keeps each of these claims unless it is one of the messages just named, and then it breaks it |
| `Ownership.RevocationLiftsTakenFreeze` | x/sanction/keeper/msg_server.go:383-388 | Revoking the case that took a freeze over lifts the freeze, although the case that was executed first stays executed |
| `Ownership.FreezeStopsSends` | x/sanction/keeper/execution.go:22-38 | In every reachable state, a freeze case in force stops all sends of its account if and only if the canonical text of the account is frozen, that is, if and only if some freeze case in force names it canonically; a single send is refused exactly when that text or the recipient is frozen |
| `Ownership.StoppedMessages` | x/sanction/keeper/execution.go:27-38 | While an account is stopped, no bank message from it is accepted, under whatever spelling |
| `Takeover.LaterFreezeTakesOver` | x/sanction/keeper/msg_server.go:173-177 | A run of six accepted messages: two freeze cases on one target, opened before either executes, end executed, and the freeze belongs to the later one alone |
| `Takeover.LaterBlockTakesOver` | x/sanction/keeper/msg_server.go:474-484 | A run of four accepted messages after which two block cases on one tx are approved and the sanction belongs to the later one alone |
| `Takeover.OtherSpellingOpens` | x/sanction/keeper/msg_server.go:108-112 | An accepted opening that files its case under another spelling of an account |
| `Takeover.OtherSpellingStopsNothing` | x/sanction/keeper/execution.go:27-38 | The freeze that follows is in force, and the account may send to everyone but the misspelt name itself |
| `Events.RunPath` | x/sanction/keeper/msg_server.go:93-402 | A run taken apart: each accepted message, recording, sync and height change starts from a state that meets the joint invariant and leads to the next |
| `Reviews.RevokedAfterReview` | x/sanction/keeper/msg_server.go:366-425 | From a fresh chain without reviews, a case is revoked if and only if its review records a revocation, at a height above that of the review |
| `Electorate.HandleDecided` | x/sanction/keeper/msg_server.go:270-293 | Every accepted message keeps: stored votes are signed member votes, decided cases rest on a met quorum, execution records belong to executed or later revoked cases |
| `Electorate.QuorumStable` | x/sanction/keeper/msg_server.go:474-484 | Approving power never falls, so a quorum once reached stays reached |
| `Electorate.UnanimousAll` | x/sanction/keeper/msg_server.go:503-520 | On a valid snapshot, unanimity of the weighted active voters is an approval by every voter |
| `Electorate.AcceptedVote` | x/sanction/keeper/msg_server.go:212-256 | An accepted vote is a first vote, in time, of a snapshot member, submitted by the signer and signed with the key that the snapshot holds |
| `Frames.HandleSound` | x/sanction/keeper/msg_server.go:27-441 | Every accepted message keeps each record under its own key and rewrites no report, vote, receipt, settlement or execution record; of a case it may change only status and execution height |
| `Frames.RunSound` | x/sanction/keeper/store.go:23-329 | The same over whole runs of transactions, syncs and height changes |
| `Runs.RunInv` | x/sanction/keeper/msg_server.go:93-402 | The joint invariant (decisions, evidence, replacement links, effect owners) holds in every state reached from a fresh chain |
| `CaseChains.ReplacementChains` | x/sanction/keeper/recovery.go:12-45 | Every chain of predecessor links is acyclic, stays on one transfer with strictly newer primary evidence, is at most one longer than the block height, and every case but its last is expired or revoked and was never executed |
| `CaseChains.RootExists` | x/sanction/keeper/recovery.go:12-45 | Every case is the end of a chain that starts at a case without predecessor |
| `CaseChains.ChainsDisjoint` | x/sanction/keeper/recovery.go:37-41 | Two rooted chains that share a case are prefixes of one another |
| `CaseChains.OneLiveCase` | x/sanction/keeper/recovery.go:20-25 | At most one case of a chain is pending, approved or executed, and it is the last |
| `Replacement.ReplacementLink` | x/sanction/keeper/msg_server.go:178-201 | An accepted opening with a predecessor links to an unexecuted pending, approved or expired case of the same transfer with older evidence and no other successor |
| `Evidence.OpenedEvidence` | x/sanction/keeper/msg_server.go:123-167 | Opening leaves evidence on which execution can rely: a primary report for this tx and target, and for a revert a committed receipt with valid coins and parties |
| `Progress.ApprovedRevertExecutes` | x/sanction/keeper/msg_server.go:270-350 | From a fresh chain, executing an approved revert succeeds if and only if the executor address is well formed, required unanimity is there, the primary evidence has not expired, the transfer is unsettled, and the bank is configured, willing and covered |
| `Outcomes.ApprovedActionExecutes` | x/sanction/keeper/msg_server.go:270-350 | From a fresh chain, executing an approved watch, block or freeze case succeeds if and only if the executor address is well formed and the primary evidence has not expired |
| `Progress.EscrowIsNeverOpened` | x/sanction/keeper/policy.go:10-51 | No case of a fresh chain asks for escrow; freezes and reverts always have a nonempty address target |
| `Policy.PolicyReach` | x/sanction/keeper/policy.go:31-50 | Escrow is never recommended; freezing and reverting need high-risk categories and a target other than a tx |
| `Policy.RecommendedExact` | x/sanction/keeper/policy.go:10-51 | For every list of reports the recommended action is the one that the highest score and the high-risk categories call for, threshold by threshold, with freezes and reverts of a tx turned into blocks |
| `Ledger.SettledAtMostOnce` | x/sanction/keeper/transfers.go:79-88 | Over every run from any state, each (tx hash, message index, denom) is settled by at most one move, of exactly the recorded amount between the recorded parties, and per denom the compensation paid equals the sum of the newly settled receipts |
| `Ledger.SettlementRepays` | x/sanction/keeper/execution.go:40-97 | A settlement that passes its checks moves the amount of the recorded receipt from its recipient to its sender, or to the module account for escrow |
| `Receipts.ReceiptsExact` | x/sanction/keeper/transfers.go:22-39 | An accepted transaction records for every coin of every send one receipt with the hash of the transaction, index, sender, recipient, denomination and amount of the message, and the height of the block; no other receipt appears or changes, and its ordinary moves are exactly the payments between the accounts of those parties |
| `Receipts.RefusedRecordsNothing` | x/sanction/keeper/transfers.go:22-27 | A refused transaction records nothing |
| `Receipts.SettlementsReversePayments` | x/sanction/keeper/execution.go:40-97 | Over every run of a chain that starts without receipts: each receipt stands for an ordinary payment made before, and each settling move takes the same amount from the account that the payment reached, a revert back to the account that paid |
| `Receipts.IntLawOfDecimals` | x/sanction/keeper/execution.go:118-131 | A parser that reads digits by place value reads the text of every positive amount back |
| `Conservation.CoinsAreConserved` | x/sanction/keeper/execution.go:55-93 | Over every run each balance is the starting balance plus what was moved in minus what was moved out, and the supply of every denom stays the same |
| `Conservation.FrozenFundsMoveOnlyBySettlement` | x/sanction/keeper/execution.go:27-38 | While an account is frozen, no accepted message changes its balance except the execution of an escrow or revert |
| `Keys.TransferKeyInjective` | x/sanction/keeper/transfers.go:16-20 | Transfers with hashes of one length never share a store key |
| `Keys.TransferKeyClash` | x/sanction/keeper/transfers.go:16-20 | Two named transfers with hashes of different lengths share one |
| `Keys.VotePrefixSelects` | x/sanction/keeper/store.go:192-207 | The vote prefix of a case selects a vote exactly when the vote is its own or on a case whose id goes on with NUL after this one |
| `Keys.VotePrefixExact` | x/sanction/keeper/keys.go:54-59 | For a set of case ids, every prefix selects exactly its own votes if and only if no id goes on with NUL after another id |
| `Keys.NulFreePrefixes` | x/sanction/keeper/keys.go:54-59 | Ids without NUL meet that condition |
| `Keys.VotePrefixClash` | x/sanction/keeper/store.go:192-207 | Two named case ids for which it fails |
| `Leases.MemoInjective` | x/sanction/keeper/lease.go:17-19 | Two leases have the same memo if and only if epoch and holder agree |
| `Leases.EpochsOnlyRise` | x/sanction/keeper/lease.go:47-84 | Over every run no lease disappears, epochs never fall, an epoch keeps its one holder, and a live lease keeps its epoch within its block |
| `Leases.OldEpochsAreFenced` | x/sanction/keeper/lease.go:98-132 | Once a later epoch is granted, no transaction under the memo of an earlier one is ever admitted for that signer |
| `Leases.OneEpochPerHeight` | x/sanction/keeper/lease.go:122-129 | Two admitted transactions of a leased signer at one height carry the same memo, epoch and holder |
| `Leases.LeasedAccountsAreFenced` | x/sanction/keeper/lease.go:112-130 | Nobody acts for a leased account, by any message, except under the memo of its live lease |
| `Leases.LeaseDiesAtItsHeight` | x/sanction/keeper/lease.go:127-129 | Once the chain has moved to the height at which a lease ends, its signer is not admitted |
| `Leases.ClaimAdvances` | x/sanction/keeper/lease.go:66-81 | A claim renews the live lease in its epoch or grants the next epoch of a dead one |
| `Leases.ClaimsStandAlone` | x/sanction/keeper/lease.go:99-107 | An admitted claim is the only message of its transaction |
| `Closure.GenesisClosure` | x/sanction/types/genesis.go:38-177 | From any valid genesis and over any run: every state on the way meets the global invariant if and only if the authority in force is usable and each sync brought signers nobody else has; and an export of the reached state validates if and only if that state meets it |
| `Closure.ExportResumes` | x/sanction/keeper/genesis.go:9-96 | Importing the export of a reached state gives the state back, secondary indexes, parameters and authority included, if and only if no vote lacks its case; a start without such votes never gets any |
| `Closure.HandleClosed` | x/sanction/keeper/msg_server.go:27-441 | Every accepted message with a valid signer keeps the global invariant and the exactness of the indexes |
| `Closure.SyncClosed` | x/sanction/keeper/validator_sync.go:62-91 | A sync keeps the invariant if and only if its created agents bring fresh signers |
| `Closure.DeliverClosed` | x/sanction/keeper/transfers.go:24-39 | A whole transaction, receipts of its sends included, keeps the invariant |
| `Closure.RunNoOrphans` | x/sanction/keeper/msg_server.go:253-255 | No step stores a vote without a case |
| `Closure.CoinLawOfSplitting` | x/sanction/types/genesis.go:130-133 | The assumption on coin texts holds of any parser that splits off the leading digits |
| `GenesisRoundTrip.ExportValidity` | x/sanction/types/genesis.go:38-177 | ValidateGenesis accepts an export if and only if the exported state meets the global invariant on its tables |
| `GenesisMeaning.ExportAccepted` | x/sanction/types/genesis.go:38-177 | An export validates if and only if the tables of the state are sound, each condition spelled out on the records |
| `GenesisMeaning.LoadsEverything` | x/sanction/types/genesis.go:38-177 | A valid genesis lists nothing twice: each agent, lease, report, case, receipt, settlement and review is found in the store that it loads |
| `GenesisMeaning.NilIsSkipped` | x/sanction/types/genesis.go:51-155 | A nil agent, report, case or execution makes no difference to the validity of its list |
| `GenesisMeaning.NilIsRefused` | x/sanction/types/genesis.go:99-168 | A nil lease, receipt, settlement or review makes the whole file invalid |
| `GenesisRoundTrip.ImportValid` | x/sanction/keeper/genesis.go:9-66 | A valid genesis loads with exactly rebuilt indexes, into a state that meets the invariant if and only if the authority in force is usable |
| `GenesisRoundTrip.EmptyAuthorityFails` | x/sanction/types/genesis.go:113-117 | The default genesis under a configured authority that is no address validates, and its own export does not |
| `GenesisRoundTrip.OrphanVoteIsLost` | x/sanction/keeper/genesis.go:87-96 | A genesis with one vote on no case validates, and its export loads back without the vote |
| `GenesisRoundTrip.RoundTrip` | x/sanction/keeper/genesis.go:68-96 | Import after export returns the state with exactly the votes that have a case; it is the whole state if and only if no vote lacks its case |
| `GenesisRoundTrip.DefaultGenesisValid` | x/sanction/types/genesis.go:33-36 | The default genesis validates |
| `Registry.SyncTable` | x/sanction/keeper/validator_sync.go:21-92 | A sync refreshes each registered agent from its own data and the last state of its operator, creates exactly one agent per qualifying operator, from the first qualifying state, and nothing else |
| `Registry.SyncKeepsIdentity` | x/sanction/keeper/validator_sync.go:41-60 | Ids, operators, signers, metadata and existing keys survive a sync; agents without an operator are untouched |
| `Registry.SyncMirrors` | x/sanction/keeper/validator_sync.go:41-91 | After a sync every operator-bound agent is active with the staking power exactly when its validator is active, powered and keyed, and otherwise inactive with power 0, if and only if no creation used a state that a later entry of its operator contradicts |
| `Registry.DistinctSyncMirrors` | x/sanction/keeper/validator_sync.go:22-28 | With each operator listed once that agreement always holds |
| `Registry.CreatedAgents` | x/sanction/keeper/validator_sync.go:62-92 | A created agent is new, active and carries operator, signer, key and power of its validator, under the id and default metadata of the sync |
| `Registry.SyncCounts` | x/sanction/keeper/validator_sync.go:46-57 | The two counters are the numbers of agents that the sync raised and lowered |
| `Registry.SyncTwice` | x/sanction/keeper/validator_sync.go:21-101 | Repeating any sync leaves every agent as it is and reports (0, 0), if and only if no creation used stale data; with an exact index and fresh signers the whole state stays |
| `Registry.SyncKeepsSigners` | x/sanction/keeper/validator_sync.go:80-88 | Signers stay distinct and indexed through a sync if and only if the created agents bring fresh ones |
| `Registry.SyncMayShareSigner` | x/sanction/keeper/validator_sync.go:80-88 | A concrete sync after which two agents own one signer |
| `Registry.SyncMayUseStaleData` | x/sanction/keeper/validator_sync.go:62-91 | A concrete state list with a repeated operator after which an agent is active although its operator's last state is not |
| `Tally.TallySnapshotVotes` | x/sanction/keeper/voting_snapshot.go:51-93 | For all voter and vote lists, nil entries and duplicates included, the map form and the scan form both give the declarative first-vote tally, and approve plus reject is at most the total |
| `Tally.CountBounded` | x/sanction/keeper/voting_snapshot.go:51-93 | No power is counted twice, however votes are repeated |
| `Percent.CeilingExact` | x/sanction/keeper/msg_server.go:494-501 | For a part of a positive total the result is the ceiling of 100 p / T and at most 100, so the 64-bit conversion loses nothing |
| `Percent.ThresholdExact` | x/sanction/keeper/msg_server.go:479-488 | The percentage is at least q exactly when 100 p > (q - 1) T |
| `Percent.FullApproval` | x/sanction/keeper/msg_server.go:479-488 | Full approval reaches every admissible quorum |
| `Percent.QuorumExclusive` | x/sanction/keeper/msg_server.go:479-490 | Approval and rejection can never both reach quorum if and only if the quorum is at least 51 |
| `SignBytes.DecodeEncode` | x/sanction/keeper/signature.go:14-26 | A decoder of the length-prefixed layout recovers every signed field |
| `SignBytes.EncodeDecode` | x/sanction/keeper/signature.go:55-68 | Whatever decodes was encoded that way: encoding the decoded fields returns the bytes |
| `SignBytes.VoteBytesInjective` | x/sanction/keeper/signature.go:14-26 | Equal vote sign bytes mean equal chain id, case, agent, option, action, reason, rationale and height |
| `SignBytes.VoteFields` | x/sanction/keeper/signature.go:14-26 | Decoding the sign bytes of a vote yields its fields, options and actions under their protobuf numbers |
| `SignBytes.VotesAreNotReports` | x/sanction/keeper/signature.go:37-45 | No vote has the sign bytes of a report |
| `Voting.ChoosersAreVoters` | x/sanction/keeper/msg_server.go:469-471 | With one stored vote per agent the tally's first votes are the stored votes |
| `Pool.CheckpointSafety` | dev/agent/internal/chainclient/pool.go:150-276 | If in every round fewer than MinAgreement endpoints are faulty, then over any number of selections, failed ones included, the checkpoint stays where it was or lies on the honest chain, and its height never falls |
| `PoolMeaning.SelectionMeaning` | dev/agent/internal/chainclient/pool.go:150-276 | On the answers alone: a selection conflicts if and only if two checkpoints are backed by enough endpoints, finds no agreement if and only if none is, and otherwise installs the one that is and ends in its first highest backer |
| `PoolMeaning.SelectedIsEligible` | dev/agent/internal/chainclient/pool.go:153-184 | A selected endpoint was on the chain of the pool, synced, timely, of the trusted genesis, not behind the checkpoint, still had its block and lay within the allowed lag of every other such endpoint |
| `PoolMeaning.TrustedGenesisStays` | dev/agent/internal/chainclient/pool.go:262-266 | Over every series of selections, once a genesis is trusted every checkpoint installed has it, and it stays trusted |
| `PoolMeaning.SelectionTrusted` | dev/agent/internal/chainclient/pool.go:171-174 | One selection installs no checkpoint of another genesis than the trusted one |
| `PoolMeaning.ProbeExact` | dev/agent/internal/chainclient/pool.go:155-184 | An endpoint passes the first probes if and only if its answers are eligible |
| `PoolMeaning.BallotExact` | dev/agent/internal/chainclient/pool.go:203-228 | An endpoint votes for exactly the checkpoint that its answers back |
| `Pool.SelectionSafe` | dev/agent/internal/chainclient/pool.go:248-263 | One round of that, with the cached genesis hashes |
| `Pool.SelectionDeterministic` | dev/agent/internal/chainclient/pool.go:229-247 | Outcome and new state depend only on the answers, not on the order in which the groups are visited |
| `Pool.MajorityNeverConflicts` | dev/agent/internal/chainclient/pool.go:86-91 | With the default agreement, a majority, two groups can never both qualify |
| `Pool.NeverBackwards` | dev/agent/internal/chainclient/pool.go:251-253 | The explicit refusal of a falling checkpoint can never fire: freshness has excluded it |
| `Pool.GroupAgrees` | dev/agent/internal/chainclient/pool.go:226-227 | All members of a group stand for one genesis and one block hash |
| `Requests.RequestTakesEffectOnce` | dev/agent/internal/rpcguard/guard.go:146-235 | Over any calls, crashes and resubmissions, all broadcasts under one id are the same bytes, stored beforehand and never replaced, and a chain that runs a transaction only at its own sequence executes them at most once |
| `Requests.OtherOperationRefused` | dev/agent/internal/rpcguard/guard.go:190-200 | Over any calls and crashes: once one operation has bound an id, every later call of another operation under it stores nothing, sends nothing and is not told of success |
| `Requests.OneOperationPerId` | dev/agent/internal/rpcguard/guard.go:146-235 | All calls that are ever served under one id ask for one operation |
| `Requests.RetrySendsStoredBytes` | dev/agent/internal/rpcguard/guard.go:197-234 | A retry that is sent sends the stored bytes, whatever signing would now give |
| `Requests.SendKeeps` | dev/agent/internal/rpcguard/guard.go:222-234 | No record is ever rewritten, and every broadcast under an id is backed by its record |
| `Requests.ReceiptsLast` | dev/agent/internal/rpcguard/guard.go:131-142 | A receipt once given stays the same over all later calls and crashes, and its hash is that of every transaction broadcast under the id |
| `Requests.SuccessExactly` | dev/agent/internal/rpcguard/guard.go:146-235 | A call reports a committed request if and only if its own transaction was found with code 0, and submits if and only if the id is new and its bytes were stored, or its own transaction was not found at an unchanged sequence |
| `Requests.FailureIsReported` | dev/agent/internal/rpcguard/guard.go:209-213 | A transaction found with another code is reported with that code and never as a success, and nothing is sent in its place |
| `Requests.StoresExactly` | dev/agent/internal/rpcguard/guard.go:197-234 | What a call stores and sends: under a new id the bytes that it signed with hash, intent and sequence, and nothing else |
| `Journal.Store.ValidateIndexes` | dev/agent/internal/txmanager/index.go:127-161 | Succeeds exactly when there is no version yet, or the version is 1, all rows are readable and each index holds exactly the keys of the active rows |
| `Journal.Store.ValidateBucket` | dev/agent/internal/txmanager/index.go:135-159 | Membership row by row plus the number of entries amount to equality of index and active keys |
| `Journal.Store.ListActive` | dev/agent/internal/txmanager/index.go:96-124 | On an agreeing index: no error, and exactly the filtered full scan in key order; in general an answer holds only active rows |
| `Journal.IndexIsFilteredScan` | dev/agent/internal/txmanager/index.go:107-121 | The index in key order is the filtered scan of the whole bucket in key order |
| `Journal.RowsBehind` | dev/agent/internal/txmanager/index.go:107-121 | The walk succeeds if and only if every entry names an active row |
| `Journal.ActiveIntents` | dev/agent/internal/txmanager/index.go:26-42 | Active intents are exactly the queued, pending and failed ones; confirmed, satisfied and cancelled ones are readable, any other status is not |
| `Journal.ActiveWork` | dev/agent/internal/txmanager/index.go:44-53 | Active work is exactly what is not done, or done with an expired case |
| `Journal.Store.MigrateIndexes` | dev/agent/internal/txmanager/index.go:59-93 | When it succeeds, and that a rebuild establishes agreement without touching the rows; an error changes nothing |
| `Journal.Store.Put` | dev/agent/internal/txmanager/store.go:66-99 | Row and index entry change together: agreement is kept, other buckets stay, an error changes nothing; on an indexed bucket it succeeds exactly for a readable row under a nonempty key |
| `Rounds.ParseOfRound` | dev/agent/cmd/sanction-agent/daemon_recovery.go:24-50 | Parsing the name of a hash and a round gives them back, for all 64-bit rounds |
| `Rounds.RoundOfParse` | dev/agent/cmd/sanction-agent/daemon_recovery.go:24-50 | A text that parses is the one name of its hash and round |
| `Rounds.RoundIdInjective` | dev/agent/cmd/sanction-agent/daemon_recovery.go:45-50 | Different rounds have different names |
| `Rounds.Walk` | dev/agent/cmd/sanction-agent/daemon_recovery.go:74-86 | The walk ends, after fewer rounds than there are cases, at the last case reachable by consecutively named and linked rounds |
| `Rounds.PassedCasesAreClosed` | dev/agent/cmd/sanction-agent/daemon_recovery.go:79-86 | On the chain every case that the walk passes is expired or revoked and never executed |
| `Rounds.RenewalIsAccepted` | dev/agent/cmd/sanction-agent/daemon_recovery.go:101-120 | For an unfinished case with newer evidence of its transfer and no successor, the chain accepts a replacement exactly when the daemon's rule says so |
| `Rounds.HoldsBackExactly` | dev/agent/cmd/sanction-agent/daemon_recovery.go:101-106 | The daemon neither renews nor takes up a case in exactly one situation, the last block in which its evidence is valid; otherwise a case is due for renewal if and only if the chain would see it as replaceable |
| `Rounds.BoundIsRecorded` | dev/agent/cmd/sanction-agent/daemon.go:663-699 | If lookups decode what the chain has recorded, evidence that the daemon has bound never fails the comparison with the recorded transfer |
| `Renewal.RenewalIsAcceptedLater` | dev/agent/cmd/sanction-agent/daemon_recovery.go:101-120 | What the daemon decides at one height, the chain accepts at the end of any further run, if the case is still unfinished and without successor and the evidence is newer evidence of its transfer |
| `Renewal.ReplaceableLasts` | x/sanction/keeper/recovery.go:34-36 | What is replaceable stays replaceable over every further run, unless it is revoked meanwhile |
| `Renewal.LapsedForGood` | x/sanction/keeper/msg_server.go:235-238 | A case that voting has left undecided is never decided afterwards |
| `Policy.ComputePolicyAction` | x/sanction/keeper/policy.go:10-51 | The nested loops give the action of the policy table for the highest score and the presence of a high-risk category |
| `GenesisChecks.ValidateGenesis` | x/sanction/types/genesis.go:38-110 | The passes over seen-maps accept exactly the genesis files that satisfy the statements about whole lists |
| `GenesisChecks.ValidateSafetyGenesis` | x/sanction/types/genesis.go:112-177 | The same for authority, receipts, settlements, executions and reviews |
| `GenesisChecks.ValidateAgents` | x/sanction/types/genesis.go:49-66 | Accepts exactly lists of valid agents with distinct ids and distinct signers, and returns those signers |
| `GenesisChecks.ValidateSettlements` | x/sanction/types/genesis.go:140-150 | Accepts exactly lists of well-formed settlements, each backed by an equal receipt and none twice |
| `GenesisChecks.ValidateExecutions` | x/sanction/types/genesis.go:151-165 | The scan accepts exactly when every monetary execution has a settlement of its case and action |
| `GenesisKeeper.InitGenesis` | x/sanction/keeper/genesis.go:9-66 | The loops leave each table as the collected list, with the indexes extended; without a genesis the default one is loaded |
| `GenesisKeeper.ExportGenesis` | x/sanction/keeper/genesis.go:68-85 | The export lists every record of every table exactly once, in some order, with parameters and authority as the keeper reads them |
| `GenesisKeeper.GetAllSanctionVotes` | x/sanction/keeper/genesis.go:87-96 | Walking the cases lists exactly the votes that have a case |
| `Types.ValidateCaseSnapshot` | x/sanction/types/voting_snapshot.go:10-28 | One pass accepts exactly snapshots with strictly ascending ids, distinct signers, positive power, keys that belong to their signers and a quorum in 1..100 |
| `ValidatorSync.SyncAgentRegistryWithValidatorSet` | x/sanction/keeper/validator_sync.go:21-101 | The two loops with their lookup maps compute the specified state and counters; the known-sets agree with the plain scans of the table throughout |
| `ValidatorSync.GetAgentByValidatorOperator` | x/sanction/keeper/validator_sync.go:103-110 | The scan finds an agent of the operator if and only if there is one, and then the one with the least id |
| `ValidatorSync.IndexByOperator` | x/sanction/keeper/validator_sync.go:22-28 | The operator map holds the last state of each nonempty operator |
| `Tally.IndexOptions` | x/sanction/keeper/voting_snapshot.go:53-65 | The map holds the first option of every agent |
| `Tally.ScanOption` | x/sanction/keeper/voting_snapshot.go:78-83 | The scan finds the first option of one agent |
| `SignBytes.VoteSignBytes` | x/sanction/keeper/signature.go:14-26 | The buffer built step by step is the specified layout |
| `SignBytes.RiskReportSignBytes` | x/sanction/keeper/signature.go:37-45 | The same for reports |
| `Voting.SnapshotCaseVoters` | x/sanction/keeper/voting_snapshot.go:13-31 | Collecting and sorting gives the eligible agents in ascending id order with the current quorum and unanimity rule, and succeeds exactly on an unset case whose snapshot validates |
| `Voting.SortByAgentId` | x/sanction/keeper/voting_snapshot.go:25-25 | Sorting keeps the members and orders them by id |
| `Voting.FindCaseVoter` | x/sanction/keeper/voting_snapshot.go:33-43 | The loop finds the first snapshot member with the id, and nobody without a snapshot |
| `Voting.GetSanctionVotes` | x/sanction/keeper/store.go:192-207 | Yields each stored vote of the case once |
| `Voting.RecomputeCaseStatus` | x/sanction/keeper/msg_server.go:465-492 | Status, activation and both flags follow from the stored votes against the frozen quorum |
| `Voting.HasUnanimousApproval` | x/sanction/keeper/msg_server.go:503-520 | True exactly when every weighted active voter has a stored approval and there is one |
| `Execution.SendCoinsAllowed` | x/sanction/keeper/execution.go:27-38 | Refuses exactly frozen parties, except inside a settlement of exactly these endpoints |
| `Execution.ExecuteEscrow` | x/sanction/keeper/execution.go:40-66 | First failing check, or the move to the module account with its ledger entry and hash; nothing is written on failure |
| `Execution.ExecuteRevert` | x/sanction/keeper/execution.go:68-97 | The same for the move back to the sender |
| `Execution.PrimaryReport` | x/sanction/keeper/execution.go:104-116 | The first report of the case, if it names the tx and target of the case |
| `Execution.UnsettledOriginal` | x/sanction/keeper/transfers.go:55-88 | The committed receipt that agrees with the report in every field, if it is not settled |
| `Execution.ReportCoins` | x/sanction/keeper/execution.go:118-131 | The positive amount of a report with a valid denomination |
| `Execution.ExpireForReplacement` | x/sanction/keeper/recovery.go:12-45 | First failing check, or the predecessor marked expired and nothing else |
| `Execution.ScanSuccessors` | x/sanction/keeper/recovery.go:37-41 | The scan of the tx index by bare hash prefix finds a successor if and only if one of the entries it meets is one |
| `MsgServer.RegisterAgent` | x/sanction/keeper/msg_server.go:27-52 | First failing check, or the agent stored with its signer index |
| `MsgServer.SubmitRiskReport` | x/sanction/keeper/msg_server.go:54-91 | First failing check, or the report stored with both indexes and its submitter filled in |
| `MsgServer.OpenSanctionCase` | x/sanction/keeper/msg_server.go:93-210 | First failing check, or predecessor expired and case stored with its frozen electorate; the only write a failure can leave behind is the expired predecessor |
| `MsgServer.SubmitSanctionVote` | x/sanction/keeper/msg_server.go:212-268 | First failing check, or vote stored and status recomputed; a late vote leaves only the EXPIRED mark behind |
| `MsgServer.ExecuteSanction` | x/sanction/keeper/msg_server.go:270-364 | First failing check with nothing written, or the effect of the action, the executed case and its record |
| `MsgServer.RevokeSanction` | x/sanction/keeper/msg_server.go:366-402 | First failing check with nothing written, or the owned effects removed, case revoked, review completed |
| `MsgServer.ReviewSanction` | x/sanction/keeper/msg_server.go:404-425 | First failing check with nothing written, or the review stored |
| `MsgServer.UpdateParams` | x/sanction/keeper/msg_server.go:427-441 | Valid parameters from the authority replace the stored ones; anything else is refused |
| `MsgServer.ClaimAgentLease` | x/sanction/keeper/lease.go:47-84 | First failing check with nothing written, or the renewed or newly granted lease |
| `MsgServer.CollectReports` | x/sanction/keeper/msg_server.go:123-158 | The report list in order, or the first error met while it is built |
| `MsgServer.ValidateRiskReport` | x/sanction/keeper/msg_server.go:443-463 | The first failing field check of a report |
| `App.CheckAgentLeaseTx` | x/sanction/keeper/lease.go:98-132 | The loops admit exactly the transactions whose claims stand alone and whose leased signers carry the memo of the live lease |
| `App.RecordOriginalTransfers` | x/sanction/keeper/transfers.go:24-39 | One receipt for each coin of each send, under its message index |
| `App.DeliverTransaction` | x/sanction/keeper/transfers.go:22-39 | A transaction changes the store as a whole or not at all |
| `App.Handle` | x/sanction/keeper/msg_server.go:27-441 | Dispatch to the handler: the specified error, or the specified effect |
| `KeeperStore.Keeper.GetAllAgents` | x/sanction/keeper/store.go:53-65 | The iterator yields all agents in ascending key order |
| `KeeperStore.Keeper.SetSanctionCase` | x/sanction/keeper/store.go:121-131 | The case and its entries in the tx and address indexes |
| `KeeperStore.Keeper.SetRiskReport` | x/sanction/keeper/store.go:67-75 | The report and its entries in the tx and address indexes |
| `KeeperStore.Keeper.SetAgent` | x/sanction/keeper/store.go:27-32 | The agent and its entry in the signer index |
| `PoolClient.RpcPool.SelectEndpoint` | dev/agent/internal/chainclient/pool.go:150-276 | The probes, loops and maps compute a specified selection for every order of group visits |
| `PoolClient.RpcPool.Call` | dev/agent/internal/chainclient/pool.go:278-295 | Only status requests, broadcasts and a pool without a client select again; a call goes to the selected client or nowhere |
| `PoolClient.FindCommon` | dev/agent/internal/chainclient/pool.go:186-201 | Highest candidate, then the lowest within the allowed lag |
| `PoolClient.FirstHighest` | dev/agent/internal/chainclient/pool.go:248-249 | The member of greatest height that was probed first |
| `PoolClient.GroupBallots` | dev/agent/internal/chainclient/pool.go:216-228 | The map holds for each key exactly its voters, in probing order |
| `Requests.Session.SendRequest` | dev/agent/internal/rpcguard/guard.go:146-235 | The steps of a call, a crash before or after the write included, give the specified records, broadcasts and outcome |
| `Rounds.ParseName` | dev/agent/cmd/sanction-agent/daemon_recovery.go:24-43 | The parser with its loop over the hex digits |
| `Rounds.Recover` | dev/agent/cmd/sanction-agent/daemon_recovery.go:87-129 | The exact result and the exact work item for every case: follow a finished case, prepare the next round of a lapsed one if the transfer can be confirmed, hold back in the last valid block, or take the case up; a review of another case or transfer is dropped |
| `Rounds.BindOriginal` | dev/agent/cmd/sanction-agent/daemon.go:663-699 | Binds the work to the reported transfer exactly when a confirmed successful transaction contains it for the tx and target of the case; a review of another transfer is dropped |

## Left out

- Closure.ExportResumes: asks for a usable authority and fresh signers so far, and compares parameters and authority as the keeper reads them, because an export always writes them out, where the store may have held neither.
- GenesisKeeper.InitGenesis: skips nil leases, receipts, settlements and reviews, on which the code panics; validation refuses such a genesis beforehand.
- GenesisKeeper.ExportGenesis: fixes the contents of the lists and leaves their order open, since import and validation do not depend on it.
- Types.ValidateCaseSnapshot: takes the voters as values; a nil voter inside a stored case, which the code refuses, is not represented (the tally is proved with nil entries).
- PoolClient.RpcPool.SelectEndpoint: probes run one after another; goroutines, contexts and clocks appear only as the answers and flags they lead to.
- Requests.Session.SendRequest: record keys are request ids rather than their hashes, and JSON that fails to parse is not represented.
- Journal.Store.ListActive: rows are texts whose headers an uninterpreted parser reads.
- Rounds.Recover: reads the primary report once, where the code queries it again for the binding at the same height.
- App.BankSend: stands for the bank module's send with its coin checks; the rest of bank and staking is not part of this model.
- NewResilient's checks of URLs and of a saved checkpoint, and opening the state directory and database of a session.
- Query handlers, protobuf, amino, gRPC and gateway code, module wiring, the proposal filter and the off-chain copy of the policy.
- Events, logs and the free text of errors; execution records carry the submitted result message as it is.
- secp256k1, SHA-256, bech32 and the protobuf encoding of reports are functions of `Env`.
- The daemon's progress loop, intent manager and failed-intent recovery, backup and controller journals, CLI, dashboard, SSH and multi-host code.
