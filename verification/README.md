# Kauri: a model of the consensus core and its proofs

Kauri is chained, event-driven HotStuff whose votes are aggregated up a tree of replicas and whose
proposer may run ahead of certificates with a pipeline of extra blocks. This project models its
consensus state machine, parent selection, aggregation tree, certificates, pipeline, encodings and
promises, and proves what they are for: that no two replicas that follow the vote rule ever commit
conflicting blocks, in any run, and exactly when a proposer can go on to make them commit more.

`dafny verify dfyconfig.toml` checks everything.

## How it is built

| modules | what they model |
|---|---|
| `Blocks`, `Votes` | blocks, certificates, quorums; safety derived from the log of votes alone |
| `ConsensusCore`, `Invariant`, `Preservation`, `Handlers`, `Pruning` | every handler of `HotStuffCore` as a function from state to state and exception; what every reachable state satisfies |
| `Agreement` | n replicas taking steps; the theorems about all runs, in both builds |
| `Progress` | that the vote rule never stands in the way of committing more |
| `Effects`, `AnyState` | what each handler changes, in states of the invariant and in any state |
| `Worlds`, `Moves` | runs in which every proposal is made on the proposer's `hqc_tail` |
| `Standstill`, `StandstillRun`, `WaitingRun`, `Backing`, `Driving`, `SoleProposer` | when such a run can go on and when it has come to a standstill |
| `Replica`, `PaceMaker` | the objects `HotStuffCore` and `PMHighTail`, whose methods update fields and loop, proved equal to those functions |
| `PlainRule` | the update rule without its early returns, and that the code's rule equals it |
| `Tree`, `TreeFanout`, `TreeShape`, `Convergecast`, `Relays`, `Impatience`, `VoteCollector` | the tree of `start`, and the flow of votes and relays up it |
| `BlsScheme`, `Certs`, `SecpCerts` | aggregation and verification, and the two kinds of certificate |
| `Bytes`, `Wire`, `WireLayout`, `WirePrefix` | the encodings, where each field lies, and messages cut short |
| `Pipeline`, `PipelineEffects` | `piped_queue`, `rdy_queue` and the drain |
| `Promises`, `PromiseThen`, `PromiseOrder`, `PromiseLibrary` | promises, `then` and `all` |

An object that the program updates in place is a class. Each of its methods is proved to leave the
state that a specification function gives, and the theorems are about those functions and their runs.

A block's hash covers its parents, commands, certificate and extra bytes, so with a collision-free hash
a block is the value of those fields, and following a hash is taking a component. The curve groups are
cyclic of order q, with an element modelled by its exponent. Replica ids and heights are unbounded in the
state machine; the encodings use the program's widths.

## What agreement assumes

The program relies on the following without enforcing it; each is an explicit condition of the model.

1. A certificate carried by a delivered block, or gathered from votes and relays, holds at least
   `nmajority` distinct signers whose signatures are valid (`Votes.CertOk`). The size check is commented out at
   src/crypto.cpp:37-38, and src/entity.cpp:59-63 has none.
2. The certified block is a proper ancestor of the block along `parents[0]` (`Votes.Admissible`).
   `PaceMaker.ParentSelectionAllowed` proves this of what a replica itself proposes when it is not pipelining.
   Uncles are lower than the block.
3. All but (n-1)/3 replicas sign only in `on_receive_proposal` and in `process_block(.., true)`, with an empty
   pipeline. The certificates opened at src/hotstuff.cpp:257-261 and 392-395, and `process_block(.., false)`, sign
   without the test; a replica that uses them counts as faulty.

Faulty replicas are not restricted: any block and certificate meeting 1 and 2 may arrive at any time, in any order.

## What turned out not to hold

- The protocol can come to a standstill. A proposal on an `hqc_tail` lower than the proposer's last vote throws
  before it is sent and leaves `hqc_tail` where it was (`Standstill.ProposalThrows`, an equivalence). In every system
  of at least two replicas, given the blocks that a single faulty replica can make up, a run leaves all others in that
  state (`StandstillRun.StandstillHappens`), and they never get out of it by themselves
  (`StandstillRun.StandstillIsFinal`). The vote rule is not to blame (`Progress.VoteRuleAdmits`). A proposer that waits
  for the certificate of its last block, as `PMWaitQC` does, can also wait for ever for one that cannot come, although
  all others would back its next block (`WaitingRun.WaitsForEver`).
- From any moment on, one proposer can make the others execute something new exactly if its tail is at least as high as
  its last vote, a quorum backs it and, if it waits, its last proposal, made before or after that moment, is finished
  (`Driving.DrivesExactly`, an equivalence). A replica backs a proposer if it has voting enabled and the proposer's
  highest certificate is above its lock or the proposer's tail extends the lock; and, if the proposer waits, if its next
  block is above the replica's last vote. If all blocks come from one proposer that follows the rule, all others with
  voting enabled always back it, and its tail is always high enough (`SoleProposer.NoStandstill`).
- `numberOfChildren` counts children and grandchildren only, so it is the size of the subtree exactly in trees at
  most three edges deep (`TreeShape.CountIsSubtreeSize`). In a deeper tree a replica may relay a proper part of its
  subtree, exactly if some replica below the root has more signers than `numberOfChildren` when it misses one child
  (`Impatience.PatientExactly`, an equivalence; `Impatience.RelaysPart` makes the run). No tree at most three edges deep
  is of that kind (`Convergecast.PatientWhenShallow`).
- Without the proposer's own signature, two or three replicas never gather a quorum
  (`Convergecast.ConvergecastCompletes`, an equivalence).
- A copied aggregate certificate has lost its count, and one that was never computed its signatures; sending repairs
  the count (`Certs.Relay`).
- A relay that arrives again for the ready block at the front of the pipeline drops the block without finishing it
  (`Pipeline.StrandedWhen`, an equivalence; `Pipeline.StrandingHappens` is a run that does it).
- A signature aggregated twice makes a certificate fail, unless it is the infinity point (`Certs.DoubleCountRejected`).
- A finality that is not decided is read back with whatever block hash the reader had before
  (`Wire.FinalityRoundTrip`, an equivalence).
- `all` need not take the reason of the input rejected first: a callback of that input may reject another, whose own
  callbacks then run before (`PromiseOrder.FirstRejectionLoses` is a run of eleven events that does it). Its reason is
  that of the input whose callback fires first (`PromiseOrder.FirstFiredWins`), which is the input rejected first
  exactly if no other input is rejected while the promise of `all` is still pending
  (`PromiseOrder.FirstRejectionWins`, an equivalence), and always so if no other input is rejected from inside a callback
  (`PromiseOrder.PromptCaller`).
- The comment in src/hotstuff.cpp:798 suggests that the fan-out of a level is rounded up; the division is an integer
  one, so it is rounded down, and the model follows the code.

## Model

| member | source | states |
|---|---|---|
| `Agreement.LogsAgree` | src/consensus.cpp:131-189 | At any two moments of any run, in either build, the executed logs of any two rule-following replicas are prefixes of one another |
| `Agreement.NeverBreached` | src/consensus.cpp:170-177 | No step of any run throws "safety breached" or reads a parent that is not there |
| `Agreement.CertifiedExtendsCommitted` | src/consensus.cpp:281-319 | Every certified block at or above any replica's last executed height extends that replica's last executed block |
| `Agreement.ExecutedLog` | src/consensus.cpp:168-188 | In every run the log is the `parents[0]` path from genesis to `b_exec`, one block per height; there is one finality for each command, and the one for command i of block k comes after those of the earlier blocks and commands, with decision 1, index i, that block's height, that command and that block; the decided blocks are genesis and the log |
| `Agreement.LogGrows` | src/consensus.cpp:178-188 | A replica's log at a later moment of a run extends its log at an earlier one |
| `Agreement.DeliveryStructure` | src/consensus.cpp:68-99 | In every run: heights are distances from genesis, ancestors, uncles and certified blocks of delivered blocks are delivered, pointers name them until pruned, `tails` is exactly the delivered blocks without delivered child, and the height-guided walk decides ancestry |
| `Agreement.StoredPointers` | src/consensus.cpp:123-129 | In every run the stored certificate certifies the stored highest block, `b_exec` is committed, `b_lock` certified, their heights are in order, and every vote cast obeyed the vote rule |
| `Agreement.StepInv` | src/consensus.cpp:68-388 | Every event at any replica keeps the system invariant, all replicas included |
| `Agreement.HandleSafe` | src/consensus.cpp:68-388 | Every handler, in every state of the invariant, keeps it with the vote it casts, only extends the log, and throws neither of the two fatal errors |
| `Driving.DrivesExactly` | src/consensus.cpp:191-319 | From any moment of any run, in either build, with one proposer who builds on its `hqc_tail` and no help from the faulty replicas: all rule-following replicas can come to execute a new block with any given commands exactly if the proposer's tail is not lower than its last vote, a quorum backs it and, if it waits for certificates, its last proposal is finished; otherwise none ever executes anything new. Both for proposers that wait and for those that do not |
| `Driving.HighestDrives` | include/hotstuff/liveness.h:76-130 | With voting enabled and no waiting, the holder of a highest certificate can go on exactly if its tail is not lower than its last vote |
| `Backing.CannotDrive` | src/consensus.cpp:246-319 | Without that condition no new block is executed by anyone in any continuation |
| `Standstill.ProposalThrows` | src/consensus.cpp:246-262 | At every moment of every run a proposal on `hqc_tail` throws "new block should be higher than vheight" exactly if the tail is lower than the last vote, and nothing else |
| `Standstill.StuckForEver` | src/consensus.cpp:257-275 | If each of those who may propose has a tail lower than its last vote, or waits for a certificate that has not come, no continuation without the faulty replicas signs anything, moves a tail or a highest block, or executes anything new |
| `StandstillRun.StandstillHappens` | include/hotstuff/liveness.h:76-101 | In every system of at least two replicas, in either build, some run leaves every rule-following replica with a last vote at height three, a tail of height at most two, and no block certified above height one. Its blocks are for a faulty replica to make; the lemma takes them as fetched from anywhere, also where no replica is faulty |
| `StandstillRun.StandstillIsFinal` | include/hotstuff/liveness.h:86-91 | From the end of that run on nothing is signed and nothing new executed, whoever may propose |
| `WaitingRun.WaitsForEver` | include/hotstuff/liveness.h:150-185 | In every system of at least two replicas, in either build, for every rule-following proposer some run ends so that it could go on if it did not wait, and all back it, but its last block cannot be certified by the votes cast, even with all faulty replicas'; if it waits, nothing new is ever executed without the faulty replicas |
| `SoleProposer.NoStandstill` | include/hotstuff/liveness.h:76-130 | If all blocks that rule-following replicas deliver are made by one of them, at every moment of every run its tail is as high as anyone's last vote and extends everyone's lock, exactly the replicas with voting enabled back it, and it can go on exactly if they are a quorum and, if it waits, its last proposal is finished |
| `Worlds.WorldLogsAgree` | src/consensus.cpp:131-189 | Agreement in those runs |
| `Worlds.WorldRunInv` | include/hotstuff/liveness.h:64-130 | In every run in which proposals are made on `hqc_tail`, the system invariant holds and every tail is delivered and extends its replica's highest certified block |
| `Effects.VerdictStands` | src/consensus.cpp:281-306 | `update` does not change the verdict of the vote rule on the block it is called for |
| `Effects.ProposalEffect` | src/consensus.cpp:281-319 | A replica shown a delivered block takes in its certificate, and votes exactly if the vote rule allows it in the state before |
| `Effects.ProposeEffect` | src/consensus.cpp:191-279 | A proposal delivers its block and takes in what it carries, throws exactly if the block is not above the last vote, and otherwise signs it; the highest certificate stays unless the own signature makes a quorum |
| `AnyState.DeliverExactly` | src/consensus.cpp:68-99 | In every state, reached or not: delivery succeeds exactly if there are parents, all stored and delivered or piped, and the certified block is stored; the fields and tails it leaves; which exception a failed one throws and what it leaves behind |
| `AnyState.CommitExactly` | src/consensus.cpp:168-188 | In every state: if the walk down from the block ends at `b_exec`, exactly the blocks passed are executed and decided, in order, and the block becomes `b_exec`; if it ends at another block at or below that height, "safety breached" is thrown and nothing changes |
| `AnyState.ProposalNeedsDelivery` | src/consensus.cpp:281-284 | In every state a proposal for a block that is not delivered throws and changes nothing |
| `AnyState.VoteExactly` | src/consensus.cpp:321-354 | In every state: a vote is noted once per voter; only the replica's own, while the carried certificate is not full, is added to the certificate collected, which becomes the highest exactly if it then has a quorum and its block is taller |
| `AnyState.GenesisVoted` | src/consensus.cpp:390-395 | No vote for genesis of a replica known at the start has an effect |
| `AnyState.ProcessEffect` | src/consensus.cpp:246-279 | In every state, for every stored block: without height adjustment the last voted height stays and the height exception is not thrown; unless something is thrown the block ends delivered and signed once, at whatever height, and with adjustment the last voted height rises to its height; a throw leaves signatures and last voted height |
| `AnyState.PipedIsNormal` | src/consensus.cpp:246-279 | In every state, processing without height adjustment is processing with it from last voted height 0, that height being put back |
| `AnyState.NewBlockOnPiped` | src/consensus.cpp:202-235 | In every state a new block keeps all parents given, in order, and stands above the first of them and the last piped block, which becomes the first parent unless the given one is strictly taller |
| `AnyState.ProposeAnywhere` | src/consensus.cpp:191-279 | In every state: no parents, an exception and no change; otherwise no given parent stays a tail, and unless something is thrown the replica has signed, once and above its last vote, a new block with the given commands, extra bytes and parents and its highest certificate |
| `Progress.VoteRuleAdmits` | src/consensus.cpp:281-319 | After any run, in either build, there are blocks, carrying certificates at hand, that the vote rule makes every rule-following replica vote for and execute, the first with any given commands; who makes them is left open |
| `Progress.Offer` | src/consensus.cpp:286-306 | In every state of the invariant there is a block, carrying a certificate at hand, that every rule-following replica accepts: above its votes, its certificate no lower than any of theirs |
| `Progress.VotesFor` | src/consensus.cpp:281-319 | A replica shown a delivered acceptable block votes for it whatever its lock, and executes the chain its certificate commits |
| `Progress.LockAgrees` | src/consensus.cpp:286-306 | A block whose certificate is as high as the replica's highest one is above its lock or extends it |
| `Progress.FourRounds` | src/consensus.cpp:131-189 | Four rounds of votes on a chain of direct parents make every rule-following replica execute its first block |
| `Votes.Safety` | src/consensus.cpp:281-319 | From the vote rule alone: a certified block at or above a committed height extends the committed block |
| `Votes.CertifiedExtends` | src/consensus.cpp:286-306 | The same for the blocks certified by a prefix of the vote log, by induction on the prefix |
| `Votes.CommittedTotal` | src/consensus.cpp:150-177 | Any two committed blocks lie on one chain |
| `Votes.CertifiedUnique` | src/consensus.cpp:287-305 | At most one block is certified at each height |
| `Votes.QuorumIntersection` | src/hotstuff.cpp:853-856 | Any two sets of `nmajority` replicas share a replica that follows the rule |
| `Invariant.WalkDecidesAncestry` | include/hotstuff/liveness.h:68-74 | The walk to the height of a delivered block stops at it exactly when the start descends from it |
| `Invariant.WalkFinds` | src/consensus.cpp:170-173 | The walk reads no missing parent, stops at the ancestor of the height asked for, and passes exactly the path above it |
| `Invariant.OpinionIsVoteRule` | src/consensus.cpp:286-306 | The code's opinion, from stored heights and links, is the vote rule on blocks |
| `Preservation.DeliverInv` | src/consensus.cpp:68-121 | Delivering an admissible block keeps the invariant, `tails` included |
| `Preservation.CommitInv` | src/consensus.cpp:167-188 | Committing an extension of `b_exec` keeps the invariant, log and decided blocks included |
| `Handlers.UpdateInv` | src/consensus.cpp:131-189 | `update` on a delivered block throws nothing, keeps the invariant, and raises the lock to what a vote for the block demands |
| `Handlers.ReceiveProposalSafe` | src/consensus.cpp:281-319 | Receiving a proposal keeps the invariant with the vote it may cast |
| `Handlers.SelfVoteObeysRule` | src/consensus.cpp:246-263 | The proposer's self-vote, which skips the lock test, meets the vote rule: in the three-step build its certificate is strictly above the lock or the lock is genesis, in the two-step build it is the lock |
| `Handlers.ProposeSafe` | src/consensus.cpp:191-244 | Proposing on delivered blocks of which the first extends the highest certified block is safe |
| `Handlers.ReceiveVoteInv` | src/consensus.cpp:321-354 | Counting a vote keeps the invariant, the collected certificate holding valid signers only |
| `Pruning.PruneInv` | src/consensus.cpp:367-388 | Pruning keeps the invariant, so no later walk reads what it cleared |
| `Pruning.PrunedIsLow` | src/consensus.cpp:370-387 | Only delivered blocks at or below the last executed height are cleared |
| `Pruning.ClearingDone` | src/consensus.cpp:375-387 | When the stack is empty, exactly the start and what is reachable from it with parent links is cleared |
| `Pruning.StaleStartIs` | src/consensus.cpp:369-371 | Pruning starts from the ancestor `staleness` below `b_exec`; there is none exactly if the chain is shorter or its links were cut on the way |
| `Pruning.PruneExactly` | src/consensus.cpp:367-388 | What pruning changes: nothing without such an ancestor; otherwise everything reachable from it loses its parent links and with them, or at the start, its certificate link, and nothing else changes |
| `PlainRule.UpdateIsPlain` | src/consensus.cpp:134-151 | The early returns are sound: `update` gives the state of the rule that looks at heights and direct parents only and commits above `b_exec` |
| `PlainRule.DoneIsLow` | src/consensus.cpp:137-148 | A decided or cleared block is at or below the last executed height |
| `PlainRule.TwoStepVotesExtendLock` | src/consensus.cpp:152-166 | In the two-step build, after `update` a block gets a vote exactly if it is above the last vote and extends the lock |
| `PaceMaker.TailAlwaysOk` | include/hotstuff/liveness.h:76-101 | In every run `hqc_tail` is delivered and extends the highest certified block |
| `PaceMaker.TallestExtends` | include/hotstuff/liveness.h:77-81 | After a certificate update `hqc_tail` is the tallest of the tails that extend the new highest certified block, and the scan reads no missing parent |
| `PaceMaker.ProposalMovesTail` | include/hotstuff/liveness.h:93-101 | In every state of the invariant a delivered block becomes the tail exactly if it descends from the highest certified block and is taller than the tail |
| `PaceMaker.ParentSelectionAllowed` | include/hotstuff/liveness.h:112-130 | At every moment of every run the parents chosen may be proposed on, and the new block's certified block is a proper ancestor of it |
| `PaceMaker.PMHighTail.CheckAncestry` | include/hotstuff/liveness.h:68-74 | The loop computes the ancestry test |
| `PaceMaker.PMHighTail.OnHqcUpdate` | include/hotstuff/liveness.h:76-84 | The scan, in any order, ends at a tallest candidate, and fails exactly if some test reads a missing parent |
| `PaceMaker.PMHighTail.OnProposal` | include/hotstuff/liveness.h:93-101 | A received proposal becomes the tail exactly if it extends the highest certified block and is taller |
| `Replica.HotStuffCore.constructor` | src/consensus.cpp:357-365 | The initial state, with genesis certifying itself |
| `Replica.HotStuffCore.DeliverBlk` | src/consensus.cpp:68-121 | The whole new state and the exception of delivery, partial updates at a throw included |
| `Replica.HotStuffCore.ResolveParents` | src/consensus.cpp:76-85 | The loop leaves the parents found before the first that cannot be resolved, and says whether that is all of them |
| `Replica.HotStuffCore.RaiseHqc` | src/consensus.cpp:123-129 | The stored block and certificate change exactly for a taller block |
| `Replica.HotStuffCore.CommitTo` | src/consensus.cpp:168-188 | The walk and the commit queue compute the commit step, its throw included |
| `Replica.HotStuffCore.ExecuteQueue` | src/consensus.cpp:178-187 | The queued blocks are decided and handed out last pushed first, with their commands in order |
| `Replica.HotStuffCore.UpdateChain` | src/consensus.cpp:131-166 | The whole new state and exception of `update` in either build |
| `Replica.HotStuffCore.FormOpinion` | src/consensus.cpp:286-306 | The loop computes the vote decision |
| `Replica.HotStuffCore.OnReceiveProposal` | src/consensus.cpp:281-319 | The whole new state, exception and signature |
| `Replica.HotStuffCore.OnReceiveVote` | src/consensus.cpp:321-354 | The whole new state and exception |
| `Replica.HotStuffCore.Process` | src/consensus.cpp:246-279 | The whole new state, exception and signature, with and without height adjustment |
| `Replica.HotStuffCore.OnPropose` | src/consensus.cpp:191-244 | The whole new state and exception of proposing |
| `Replica.HotStuffCore.PruneStale` | src/consensus.cpp:367-388 | The walk and the stack clear exactly what the specification clears |
| `Replica.HotStuffCore.ClearFrom` | src/consensus.cpp:372-387 | The stack loop terminates, twice the remaining links plus the stack's depth decreasing, and clears exactly the start and what is reachable from it with parent links |
| `Tree.BuildTree` | src/hotstuff.cpp:787-835 | The level loop stays in bounds, terminates, and gives each replica its children, child peers and parent peer in the one tree of the parent function |
| `Tree.ViewsAgree` | src/hotstuff.cpp:817-826 | The views two replicas end up with agree: b is among a's child peers exactly if a is b's parent peer, only the root has no parent, nobody has two, and a counts its children and theirs |
| `Tree.ChildrenContiguous` | src/hotstuff.cpp:798-811 | The children of a replica are a contiguous range of at most fan-out later replicas |
| `TreeFanout.LevelFanout` | src/hotstuff.cpp:791-811 | With `first` replicas nearer to the root and `level` at the same depth, a replica has at most min((n - first) / level, m) children, and exactly that many if a later replica of its depth has any |
| `TreeFanout.InOrder` | src/hotstuff.cpp:798-835 | Later replicas have no earlier parents and are no nearer to the root |
| `TreeShape.HeightIsLeast` | src/hotstuff.cpp:791-835 | The tree's height is the least d with 1 + m + ... + m^d >= n |
| `TreeShape.NoSubtreeQuorum` | src/hotstuff.cpp:787-853 | Every subtree below the root has fewer than `nmajority` members, for every n and fan-out of at least two |
| `TreeShape.CountIsSubtreeSize` | src/hotstuff.cpp:817-838 | `numberOfChildren` + 1 is the subtree size of every replica below the root exactly in trees at most three edges deep |
| `Convergecast.ConvergecastCompletes` | src/hotstuff.cpp:291-346 | In a patient tree, in every run that comes to rest, in any order of votes, arrivals and verifications, every replica below the root has relayed once, exactly its subtree; the root holds a verifying quorum exactly if its own signature is in or n >= 4 |
| `Convergecast.NeverPartial` | src/hotstuff.cpp:445-487 | In a patient tree, at every moment of every run, what a replica has sent is nothing or its whole subtree once, the root's certificate verifies, and it has been passed on exactly if it holds a quorum |
| `Impatience.PatientExactly` | src/hotstuff.cpp:445-487 | A tree is patient, that is, every replica below the root is short of `numberOfChildren` + 1 signers without any one child, exactly if no run makes a replica relay anything but its whole subtree |
| `Impatience.RelaysPart` | src/hotstuff.cpp:453-481 | Every tree that is not patient has a run in which a replica relays a proper part of its subtree |
| `Convergecast.PatientWhenShallow` | src/hotstuff.cpp:817-838 | Trees at most three edges deep are patient |
| `Convergecast.StepInv` | src/hotstuff.cpp:255-332 | Every event keeps the invariant: certificates hold exactly the subtrees heard of, each signature once |
| `Convergecast.Threshold` | src/hotstuff.cpp:268-301 | A replica that misses a child is short of a quorum and of `numberOfChildren` + 1; with the last child, and no earlier, it reaches the latter |
| `Relays.SendsOnce` | src/hotstuff.cpp:285-332 | In every tree, patient or not, at every moment of every run: a replica sends at most once, what it sends verifies, holds its own signature and is of its subtree; a leaf has sent exactly if it has voted, any other exactly if more than `numberOfChildren` have signed its certificate, which stays as sent |
| `Relays.FinishedCount` | src/hotstuff.cpp:334-346 | In every tree and run the root has passed its certificate on once for having become complete, if it has, and once more for every single vote added after that |
| `Relays.ReceiveExactly` | src/hotstuff.cpp:436-487 | In any state, for any verified message: when it is ignored, what the certificate becomes, and when it is sent on or passed on |
| `Relays.TakeExactly` | src/hotstuff.cpp:255-281 | In any state: the message opens the certificate with the own signature, and is dropped exactly if that has a quorum |
| `Relays.CastExactly` | src/hotstuff.cpp:724-747 | In any state: a replica without children sends its vote, another puts it into a certificate unless it has one |
| `VoteCollector.Collector.DoVote` | src/hotstuff.cpp:724-747 | A leaf sends its vote, an internal replica opens its certificate with it |
| `VoteCollector.Collector.OnMessage` | src/hotstuff.cpp:391-436 | The part before verification, and when it drops the message |
| `VoteCollector.Collector.OnVerified` | src/hotstuff.cpp:285-346 | The part after verification, for votes and relays, below and at the root |
| `BlsScheme.Aggregate` | bls/src/schemes.cpp:117-151 | The loop sums the points, infinity for none |
| `BlsScheme.SumOrder` | bls/src/schemes.cpp:117-133 | The order of summands does not matter |
| `BlsScheme.NativeVerify` | bls/src/schemes.cpp:202-226 | Multiplying 250 pairings at a time gives the verdict of the single product |
| `BlsScheme.FastAggregateVerify` | bls/src/schemes.cpp:540-557 | Accepts exactly a non-empty key list whose summed key has signed |
| `Certs.AddConserves` | include/hotstuff/crypto.h:987-1020 | Adding a part adds its signature to the total and its signer to the bitmap, nothing else, and keeps the count |
| `Certs.MergeConserves` | include/hotstuff/crypto.h:1022-1063 | Merging adds the other's total and signers |
| `Certs.ComputeConserves` | include/hotstuff/crypto.h:1070-1085 | Computing keeps the total and empties the loose signatures |
| `Certs.Build` | include/hotstuff/crypto.h:987-1115 | Any nesting of add, merge and compute, and of sending on a computed certificate by copying, serializing and reading it, holds exactly the signatures that went in, its bitmap their signers, its count the number of them |
| `Certs.AcceptedExactly` | src/crypto.cpp:77-110 | The verdict on any certificate that can be built: accepted exactly if the signatures beyond the first of each signer sum to nothing |
| `Certs.VerdictExactly` | src/crypto.cpp:77-110 | The verdict on any certificate that can be built, as it is: accepted exactly if computing or reading it came last, somebody has signed it, and the signatures beyond the first of each signer sum to nothing |
| `Certs.DisjointAccepted` | src/crypto.cpp:77-110 | With each signature in once it is accepted, whatever the order and nesting |
| `Certs.DoubleCountRejected` | src/crypto.cpp:84-100 | One signature in twice: accepted exactly if it is the infinity point |
| `Certs.OrderImmaterial` | include/hotstuff/crypto.h:1022-1063 | Equal parts give equal computed certificates |
| `Certs.Relay` | include/hotstuff/crypto.h:1092-1115 | A copy answers `has_n` for 0 only and keeps the total of a computed certificate and nothing of another; the serialize exception is unreachable; copying, sending and reading gives the certificate back exactly if it was computed or holds nothing |
| `Certs.QuorumCertAggBLS.AddPart` | include/hotstuff/crypto.h:987-1020 | The whole new state, or the exception and no change |
| `Certs.QuorumCertAggBLS.MergeQuorum` | include/hotstuff/crypto.h:1022-1063 | The whole new state, or the exception and no change |
| `Certs.QuorumCertAggBLS.Compute` | include/hotstuff/crypto.h:1070-1085 | The whole new state |
| `Certs.QuorumCertAggBLS.CalculateN` | include/hotstuff/crypto.h:978-985 | The loop counts the signers |
| `Certs.QuorumCertAggBLS.HasN` | include/hotstuff/crypto.h:1065-1068 | Answers whether that many distinct signers are in, when the count is tidy |
| `Certs.QuorumCertAggBLS.Clone` | include/hotstuff/crypto.h:1092-1094 | A fresh object with what the copy constructor keeps |
| `Certs.QuorumCertAggBLS.Serialize` | include/hotstuff/crypto.h:1096-1105 | What is sent, and that a tidy certificate never throws |
| `Certs.QuorumCertAggBLS.Unserialize` | include/hotstuff/crypto.h:1107-1115 | What is read, with the count recomputed |
| `Certs.QuorumCertAggBLS.Verify` | src/crypto.cpp:77-110 | The keys of the bitmap are collected in order and the aggregate checked against them |
| `SecpCerts.EcBuild` | include/hotstuff/crypto.h:490-506 | Through any adds and merges, the bitmap is set exactly for the signers stored, and each signer's first signature is kept |
| `SecpCerts.EcOrder` | include/hotstuff/crypto.h:498-506 | The order of merges changes no signer, and no signature if each signer contributes one |
| `SecpCerts.QuorumCertSecp256k1.AddPart` | include/hotstuff/crypto.h:490-496 | The whole new state, or the exception and no change |
| `SecpCerts.QuorumCertSecp256k1.MergeQuorum` | include/hotstuff/crypto.h:498-506 | The whole new state in whatever order the map is walked, or the exception and no change |
| `SecpCerts.QuorumCertSecp256k1.HasN` | include/hotstuff/crypto.h:508-511 | Counts distinct signers |
| `SecpCerts.QuorumCertSecp256k1.Verify` | src/crypto.cpp:36-49 | Accepts exactly if every stored signature is valid |
| `Wire.BlockRoundTrip` | src/entity.cpp:22-57 | A block followed by anything is read back as sent exactly if its lists are shorter than 2^32 and its certificate is read back |
| `Wire.BlockInjective` | src/entity.cpp:22-57 | Different blocks have different encodings, none a prefix of another |
| `Wire.CertRead` | include/hotstuff/crypto.h:524-534 | A certificate is read back as sent exactly if its bitmap announces the signatures it stores and is shorter than 2^32 |
| `Wire.VoteRoundTrip` | include/hotstuff/consensus.h:289-297 | A vote is read back as sent |
| `Wire.RelayRoundTrip` | include/hotstuff/consensus.h:391-399 | A relay is read back as sent exactly if its certificate is |
| `Wire.ProposalRoundTrip` | include/hotstuff/consensus.h:239-250 | A proposal is read back as sent exactly if its block is |
| `Wire.FinalityRoundTrip` | include/hotstuff/consensus.h:341-353 | A finality is read back as sent exactly if it is decided or the reader already had its block hash |
| `Wire.SerializeBlock` | src/entity.cpp:22-30 | The loops append exactly the encoding |
| `Wire.UnserializeBlock` | src/entity.cpp:32-57 | The loops read exactly what the parser reads, or throw when it runs short |
| `Wire.SerializeSecp` | include/hotstuff/crypto.h:524-528 | The bitmap-driven loop appends exactly the encoding |
| `Wire.UnserializeSecp` | include/hotstuff/crypto.h:530-534 | The bitmap-driven loop reads exactly what the parser reads |
| `WireLayout.BlockLayout` | src/entity.cpp:22-30 | At which offset each parent hash, command, the certificate and the extra bytes of a block lie, and the 32-bit counts before them, the lowest byte first |
| `WireLayout.CertLayout` | include/hotstuff/crypto.h:524-528 | The offsets of a certificate's hash, bitmap and bits, of each signer's signature after those of the signers before it, and in the other build of the flag and the aggregate |
| `WireLayout.PartLayout` | include/hotstuff/crypto.h:470-473 | The hash, then the signature |
| `WireLayout.VoteLayout` | include/hotstuff/consensus.h:289-292 | The voter in 16 bits, the block's hash, the signature |
| `WireLayout.RelayLayout` | include/hotstuff/consensus.h:391-394 | The block's hash, the certificate |
| `WireLayout.ProposalLayout` | include/hotstuff/consensus.h:239-242 | The proposer in 16 bits, the block |
| `WireLayout.FinalityLayout` | include/hotstuff/consensus.h:341-345 | The offsets of all fields; the decision in two's complement; the block's hash exactly if the decision is 1 |
| `WirePrefix.BlockCutShort` | src/entity.cpp:32-57 | However much of its end a block is missing, reading it throws |
| `WirePrefix.VoteCutShort` | include/hotstuff/consensus.h:294-297 | The same of votes |
| `WirePrefix.RelayCutShort` | include/hotstuff/consensus.h:396-399 | The same of relays |
| `WirePrefix.ProposalCutShort` | include/hotstuff/consensus.h:244-250 | The same of proposals |
| `WirePrefix.FinalityCutShort` | include/hotstuff/consensus.h:347-353 | The same of finalities, decided or not |
| `WirePrefix.BlockExtends` | src/entity.cpp:32-57 | On any bytes, reading a block takes what it needs and leaves the rest, whatever follows |
| `Pipeline.PipelineOrder` | src/hotstuff.cpp:915-937 | In every run `piped_queue` has at most `async_blocks` entries in strictly increasing height, and the full scan finds the last entry or the block it started from |
| `Pipeline.ScanIsBack` | src/consensus.cpp:213-219 | Over a queue in order, the scan of `beat` and the `back()` of `on_propose` find the same tallest block |
| `Pipeline.FrontDrains` | src/hotstuff.cpp:492-523 | In every run, a front that gets its quorum is finished, then one parent line of ready blocks, each out of both queues once; no ready block follows the last; the highest certified block is the taller of the old one and the end of the line |
| `PipelineEffects.OthersComplete` | src/hotstuff.cpp:492-547 | In every run, a block that gets its quorum and is not piped, the queue being empty or not, is finished at once, the highest certified block being the taller, and both queues stay; one that is piped but not at the front only joins the ready ones |
| `PipelineEffects.AgainDrains` | src/hotstuff.cpp:400-427 | In every run, a further relay takes the block off the front and finishes one parent line of ready blocks from it, not the block itself, and does nothing for any other block |
| `PipelineEffects.BeatMakes` | src/hotstuff.cpp:898-958 | In every run: when a beat makes a block and when it is piped, that it has the tail as last parent, above which blocks it stands, and which its first parent is |
| `PipelineEffects.Accounted` | src/hotstuff.cpp:400-547 | In every run, every quorum a block got has finished it once or left it among the ready ones, nothing else is finished, and the highest certified block is a tallest of those finished |
| `Pipeline.DrainEffect` | src/hotstuff.cpp:502-522 | The drain terminates with the same effect from any start, what is left of the queues keeping its order |
| `Pipeline.StepInv` | src/hotstuff.cpp:400-546 | Every event keeps the queues in order and a ready block whose parent is piped piped itself |
| `Pipeline.StrandedWhen` | src/hotstuff.cpp:400-427 | A step takes a ready block off the pipeline unfinished exactly if a relay arrives again for it at the front |
| `Pipeline.StrandedForEver` | src/hotstuff.cpp:400-427 | Such a block stays ready, and only a late vote of its own finishes it |
| `Pipeline.StrandingHappens` | src/hotstuff.cpp:400-427 | A run of nine events in which that happens |
| `Pipeline.ProposerQueues.OnBeat` | src/hotstuff.cpp:898-958 | The whole new state and the block made, the scan being a loop |
| `Pipeline.ProposerQueues.OnRelay` | src/hotstuff.cpp:400-547 | The whole new state, for a relay that finds, completes or misses the quorum, or completes it with a certificate that does not verify |
| `Pipeline.ProposerQueues.DrainReady` | src/hotstuff.cpp:502-522 | The nested loops compute the drain |
| `Pipeline.ProposerQueues.OnVote` | src/hotstuff.cpp:334-344 | The whole new state after a vote that leaves a quorum |
| `Promises.SettlesOnce` | include/hotstuff/promise.hpp:577-599 | In every run a settled promise keeps its result |
| `Promises.FiresOnce` | include/hotstuff/promise.hpp:472-482 | In every run each registration fires at most once, and once nothing is left to run it has fired exactly if it does not wait on a pending promise |
| `PromiseThen.ThenSettles` | include/hotstuff/promise.hpp:489-575 | In every run, once nothing is left to run, what `then` or `fail` returned, if nobody else has settled it, is pending exactly if the promise is; otherwise it is settled the same way, without a value if a handler was given for it and with the same value if not; and exactly the handler given for it has run, once, with that result and before the settling |
| `PromiseThen.FireInOrder` | include/hotstuff/promise.hpp:472-482 | In every run, of two callbacks that have waited on one promise the later fires only after the earlier, whatever happens in between |
| `PromiseOrder.AllSettles` | include/hotstuff/promise.hpp:602-624 | Once nothing is left to run, `all` is fulfilled exactly if every input is, with the values in input order, rejected exactly if some input is, with the reason of the one whose callback fired first, and its counter is the number of inputs not fulfilled |
| `PromiseOrder.FirstFiredWins` | include/hotstuff/promise.hpp:466-482 | At every moment of every run, the reason of a rejected `all` is that of the rejected input whose registration stands first among those that have fired |
| `PromiseOrder.FirstRejectionWins` | include/hotstuff/promise.hpp:593-616 | The first input whose rejection reaches `all` gives the reason exactly if no other's reaches it while the promise of `all` is pending |
| `PromiseOrder.PromptCaller` | include/hotstuff/promise.hpp:593-616 | A caller that rejects no further input while callbacks are left to run gets the reason of the first, also if inputs were rejected beforehand |
| `PromiseOrder.FirstRejectionLoses` | include/hotstuff/promise.hpp:472-482 | A run in which the input rejected first does not give the reason |
| `Promises.StepInv` | include/hotstuff/promise.hpp:466-624 | Every action of the client, at any point between two callbacks, keeps each registration in one place and every slot of `all` filled, waiting or about to be filled |
| `PromiseLibrary.Library.SettleOne` | include/hotstuff/promise.hpp:577-599 | Settling, with the nested callbacks it sets off, leaves what running the model to its end leaves |
| `PromiseLibrary.Library.ThenDo` | include/hotstuff/promise.hpp:489-575 | The new promise and the whole new state |
| `PromiseLibrary.Library.AllDo` | include/hotstuff/promise.hpp:602-624 | The new promise and the whole new state, or the exception on an empty list |
| `PromiseLibrary.DrainSplit` | include/hotstuff/promise.hpp:472-482 | Running the callbacks one after another is running them as one stack |

## Left out

- Pipelining inside the agreement theorem: a proposer with a non-empty `piped_queue` signs without the vote rule and counts as faulty; the pipeline is modelled on its own.
- Agreement.LogsAgree: rests on the three assumptions listed above, because the code checks none of them.
- Driving.DrivesExactly: says that going on stays possible, not that timers and leaders bring it about; votes cast and proposals sent before the moment in question are taken to have arrived or to be lost; one proposer is considered at a time; a beat is pending whenever the proposer may propose, so that it registers for the certificate of its last block at once; `voted.size()` at src/consensus.cpp:400 is left out, since on_receive_vote is only called with the replica's own vote; there are at least two replicas, as `start` needs; nothing is pruned meanwhile; and a proposer that waits must be given commands that make its first block one that nobody knows.
- Progress.VoteRuleAdmits: leaves open who makes the blocks.
- Convergecast.ConvergecastCompletes: one block, every replica voting, every vote valid and delivered once, replica 0 proposing.
- Convergecast: an internal replica opens its certificate when its vote or the first message is handled; the code would dereference a null certificate for a delivered block it never votes on.
- Pipeline.StepInv: a new proposal is taken to differ from every block made before.
- Pipeline.ProposerQueues.DrainReady: erases by value, where the program erases through a reference into the queue being erased from (src/hotstuff.cpp:411-416, 507-512); src/hotstuff.cpp:402 is taken to look at the front only of a non-empty queue.
- PromiseLibrary.Library.SettleOne: the object runs the client's handlers as functions that touch no promise, so re-entrant clients are covered by the run model of `Promises` and `PromiseOrder` only, which lets them do anything at any point.
- Promises: the stack-free build, `race`, the types carried by `any`, and handlers that return a value or a promise.
- Replica.HotStuffCore.PruneStale: releasing storage at src/consensus.cpp:380 is left out; blocks stay known.
- Replica.HotStuffCore.OnReceiveVote: what `has_n` answers on the carried certificate is a parameter.
- Tree.BuildTree: needs fan-out and n of at least two and distinct peer ids, and takes a moved-from hash to be readable; with fan-out 1 or n = 1 src/hotstuff.cpp:830 indexes past the end.
- BlsScheme: curves, pairings, hashing to the curve and point formats; a group element is its exponent.
- Wire.VoteRoundTrip: signatures are fixed-width byte strings; parsing them into points is not modelled; numbers written in the machine's own order are taken as little-endian.
- The follower's clean-up of `piped_queue` at src/hotstuff.cpp:304-321, which is empty with a fixed proposer.
- `PMWaitQC`'s pending beats and timing, the round-robin pacemaker, command batching and client callbacks.
- Networking, TLS, the event loop, timers, threads, the verification pool, logging and statistics.
- Configuration, key generation, applications and scripts.
