/** A system of n replicas of which at most (n - 1) / 3 do not follow the vote rule, and the
  * theorems about all its runs. */
module Agreement {
  import opened Blocks
  import opened Votes
  import opened ConsensusCore
  import opened Invariant
  import opened Preservation
  import opened Handlers
  import opened Pruning

  /** What can happen next at a rule-following replica r. */
  datatype Event =
    | EvFetch(r: ReplicaId, b: Block)
    | EvDeliver(r: ReplicaId, b: Block)
    | EvProposal(r: ReplicaId, b: Block)
    | EvPropose(r: ReplicaId, cmds: seq<Command>, parents: seq<Block>, extra: seq<nat>, carriedFull: bool)
    | EvVote(r: ReplicaId, b: Block, voter: ReplicaId, carriedFull: bool)
    | EvCertificate(r: ReplicaId, b: Block, qc: Cert)
    | EvPrune(r: ReplicaId, staleness: nat)

  /** The rule-following replicas and the votes they have cast.  The others have no state here:
    * the blocks and certificates they make up arrive through the events. */
  datatype Sys = Sys(cores: map<ReplicaId, Core>, votes: seq<Vote>)

  ghost predicate IsInit(c: Config, y: Sys)
    requires c.n >= 1
  {
    && (forall r :: r in y.cores <==> c.Honest(r))
    && (forall r | r in y.cores ::
      y.cores[r] == ConsensusCore.Init(r, c.NMajority(), c.Replicas(), y.cores[r].voteDisabled))
    && y.votes == []
  }

  /** When an event may happen.  A block is delivered only if its certificate holds a quorum of
    * valid signatures over a proper ancestor and its uncles are lower than it; a new block is
    * proposed on delivered blocks, the first of which extends the highest certified block; a
    * certificate gathered from votes and relays holds a quorum of valid signatures. */
  ghost predicate Allowed(c: Config, y: Sys, e: Event)
    requires c.n >= 1
  {
    && e.r in y.cores
    && var s := y.cores[e.r];
    && Wired(s)
    && match e
       case EvFetch(_, b) => true
       case EvDeliver(_, b) => b in s.storage && Admissible(c, y.votes, b) && LowerParents(b)
       case EvProposal(_, b) => b in s.storage
       case EvPropose(_, _, parents, _, _) =>
         && s.hqcCert.obj == s.hqc
         && (forall p | p in parents :: DeliveredIn(s.storage, p) && Height(p) <= Height(parents[0]))
         && (parents != [] ==> Extends(parents[0], s.hqc))
       case EvVote(_, b, voter, _) => voter == e.r ==> Vote(voter, b) in y.votes
       case EvCertificate(_, b, qc) => DeliveredIn(s.storage, b) && qc.obj == b && CertOk(c, y.votes, qc)
       case EvPrune(_, _) => true
  }

  /** The handler each event runs. */
  ghost function Handle(c: Config, y: Sys, e: Event): (o: Outcome)
    requires c.n >= 1 && Allowed(c, y, e)
  {
    var s := y.cores[e.r];
    match e
    case EvFetch(_, b) => Outcome(Fetch(s, b), None)
    case EvDeliver(_, b) => Deliver(s, b)
    case EvProposal(_, b) => ReceiveProposal(c.build, s, b)
    case EvPropose(_, cmds, parents, extra, carriedFull) =>
      Propose(c.build, s, cmds, parents, extra, carriedFull)
    case EvVote(_, b, voter, carriedFull) => ReceiveVote(s, b, voter, carriedFull)
    case EvCertificate(_, b, qc) => Outcome(UpdateHqc(s, b, qc), None)
    case EvPrune(_, staleness) => Outcome(Prune(s, staleness), None)
  }

  ghost function Next(c: Config, y: Sys, e: Event): Sys
    requires c.n >= 1 && Allowed(c, y, e)
  {
    var s' := Handle(c, y, e).core;
    Sys(y.cores[e.r := s'], VotesAfter(y.votes, y.cores[e.r], s'))
  }

  ghost predicate Inv(c: Config, y: Sys) {
    && c.Valid()
    && VotesOk(c, y.votes)
    && (forall r :: r in y.cores <==> c.Honest(r))
    && (forall r | r in y.cores :: y.cores[r].id == r && CoreInv(c, y.votes, y.cores[r]))
  }

  // ---------- initially ----------

  lemma InitCore(c: Config, r: ReplicaId, disabled: bool)
    requires c.Valid() && c.Honest(r)
    ensures CoreInv(c, [], ConsensusCore.Init(r, c.NMajority(), c.Replicas(), disabled))
  {
    var s := ConsensusCore.Init(r, c.NMajority(), c.Replicas(), disabled);
    assert s.storage[Genesis].selfQc.value.signers == {};
    assert BlkOk(c, [], s.storage, Genesis, Genesis);
    assert StoreOk(c, [], s.storage, Genesis);
    assert TailsOk(s.storage, s.tails);
  }

  lemma InitInv(c: Config, y: Sys)
    requires c.Valid() && IsInit(c, y)
    ensures Inv(c, y)
  {
    forall r | r in y.cores ensures y.cores[r].id == r && CoreInv(c, y.votes, y.cores[r]) {
      InitCore(c, r, y.cores[r].voteDisabled);
    }
  }

  // ---------- one step ----------

  lemma QuietSafe(c: Config, votes: seq<Vote>, s: Core, o: Outcome)
    requires c.Valid() && VotesOk(c, votes) && CoreInv(c, votes, o.core) && Quiet(s, o.core)
    requires o.error != Some(SafetyBreached) && o.error != Some(DanglingRead)
    ensures Safe(c, votes, s, o)
  {
  }

  /** Every handler, in every state that satisfies the invariant. */
  lemma HandleSafe(c: Config, y: Sys, e: Event)
    requires Inv(c, y) && Allowed(c, y, e)
    ensures Safe(c, y.votes, y.cores[e.r], Handle(c, y, e))
  {
    hide CoreInv, Fetch, Deliver, ReceiveProposal, Propose, ReceiveVote, UpdateHqc, Prune, Safe, VotesOk, Wired,
      Admissible, Certified, CertOk;
    var s, votes := y.cores[e.r], y.votes;
    match e {
      case EvFetch(_, b) =>
        FetchInv(c, votes, s, b);
        QuietSafe(c, votes, s, Outcome(Fetch(s, b), None));
      case EvDeliver(_, b) =>
        DeliverInv(c, votes, s, b);
        DeliverQuiet(s, b);
        QuietSafe(c, votes, s, Deliver(s, b));
      case EvProposal(_, b) =>
        ReceiveProposalSafe(c, votes, s, b);
      case EvPropose(_, cmds, parents, extra, carriedFull) =>
        ProposeSafe(c, votes, s, cmds, parents, extra, carriedFull);
      case EvVote(_, b, voter, carriedFull) =>
        ReceiveVoteInv(c, votes, s, b, voter, carriedFull);
        QuietSafe(c, votes, s, ReceiveVote(s, b, voter, carriedFull));
      case EvCertificate(_, b, qc) =>
        UpdateHqcInv(c, votes, s, b, qc);
        QuietSafe(c, votes, s, Outcome(UpdateHqc(s, b, qc), None));
      case EvPrune(_, staleness) =>
        PruneInv(c, votes, s, staleness);
        QuietSafe(c, votes, s, Outcome(Prune(s, staleness), None));
    }
  }

  lemma StepInv(c: Config, y: Sys, e: Event)
    requires Inv(c, y) && Allowed(c, y, e)
    ensures Inv(c, Next(c, y, e))
  {
    hide Handle, CoreInv;
    HandleSafe(c, y, e);
    var s, s' := y.cores[e.r], Handle(c, y, e).core;
    var y' := Next(c, y, e);
    forall r | r in y'.cores ensures y'.cores[r].id == r && CoreInv(c, y'.votes, y'.cores[r]) {
      if r != e.r && y'.votes != y.votes {
        OthersVote(c, y.votes, y.cores[r], Vote(s.id, s'.signed[|s'.signed| - 1]));
      }
    }
  }

  // ---------- runs ----------

  ghost predicate StepAt(c: Config, ys: seq<Sys>, es: seq<Event>, i: nat)
    requires c.n >= 1 && |ys| == |es| + 1 && i < |es|
  {
    Allowed(c, ys[i], es[i]) && ys[i + 1] == Next(c, ys[i], es[i])
  }

  /** A run: states and the events between them. */
  ghost predicate IsRun(c: Config, ys: seq<Sys>, es: seq<Event>)
    requires c.n >= 1
  {
    && |ys| == |es| + 1
    && IsInit(c, ys[0])
    && forall i {:trigger StepAt(c, ys, es, i)} | 0 <= i < |es| :: StepAt(c, ys, es, i)
  }

  lemma RunStep(c: Config, ys: seq<Sys>, es: seq<Event>, i: nat)
    requires c.n >= 1 && IsRun(c, ys, es) && i < |es|
    ensures |ys| == |es| + 1 && Allowed(c, ys[i], es[i]) && ys[i + 1] == Next(c, ys[i], es[i])
  {
    assert StepAt(c, ys, es, i);
  }

  lemma {:induction false} RunInv(c: Config, ys: seq<Sys>, es: seq<Event>, i: nat)
    requires c.Valid() && IsRun(c, ys, es) && i < |ys|
    ensures Inv(c, ys[i])
  {
    hide Next, Allowed, Inv;
    if i == 0 {
      InitInv(c, ys[0]);
    } else {
      RunInv(c, ys, es, i - 1);
      RunStep(c, ys, es, i - 1);
      StepInv(c, ys[i - 1], es[i - 1]);
    }
  }

  /** In no run does a rule-following replica reach the "safety breached" throw, or read a parent that is not there. */
  lemma NeverBreached(c: Config, ys: seq<Sys>, es: seq<Event>, i: nat)
    requires c.Valid() && IsRun(c, ys, es) && i < |es|
    ensures Allowed(c, ys[i], es[i])
    ensures Handle(c, ys[i], es[i]).error != Some(SafetyBreached)
    ensures Handle(c, ys[i], es[i]).error != Some(DanglingRead)
  {
    RunStep(c, ys, es, i);
    RunInv(c, ys, es, i);
    HandleSafe(c, ys[i], es[i]);
  }

  /** A replica's executed log only ever grows. */
  lemma StepLog(c: Config, y: Sys, e: Event, r: ReplicaId)
    requires Inv(c, y) && Allowed(c, y, e) && r in y.cores
    ensures r in Next(c, y, e).cores && y.cores[r].log <= Next(c, y, e).cores[r].log
  {
    hide Handle, CoreInv, VotesOk, Allowed;
    HandleSafe(c, y, e);
  }

  lemma {:induction false} LogGrows(c: Config, ys: seq<Sys>, es: seq<Event>, i: nat, j: nat, r: ReplicaId)
    requires c.Valid() && IsRun(c, ys, es) && i <= j < |ys| && c.Honest(r)
    ensures r in ys[i].cores && r in ys[j].cores
    ensures ys[i].cores[r].log <= ys[j].cores[r].log
  {
    hide Next, CoreInv, VotesOk, Allowed, IsInit;
    RunInv(c, ys, es, i);
    RunInv(c, ys, es, j);
    if i < j {
      hide IsRun;
      LogGrows(c, ys, es, i, j - 1, r);
      RunInv(c, ys, es, j - 1);
      RunStep(c, ys, es, j - 1);
      StepLog(c, ys[j - 1], es[j - 1], r);
    }
  }

  lemma {:induction false} PathPrefix(b: Block, a: Block)
    requires Extends(b, a)
    ensures Path(a) <= Path(b)
  {
    PathSplit(b, a);
  }

  /** Two prefixes-or-extensions of each other. */
  predicate Comparable<T(==)>(a: seq<T>, b: seq<T>) {
    a <= b || b <= a
  }

  lemma CoresAgree(c: Config, votes: seq<Vote>, a: Core, b: Core)
    requires c.Valid() && VotesOk(c, votes) && CoreInv(c, votes, a) && CoreInv(c, votes, b)
    ensures Comparable(a.log, b.log)
  {
    hide StoreOk, TailsOk, SignedOk, VoterOk, VotesOk, Path;
    CommittedTotal(c, votes, a.bExec, b.bExec);
    if Extends(a.bExec, b.bExec) {
      PathPrefix(a.bExec, b.bExec);
    } else {
      PathPrefix(b.bExec, a.bExec);
    }
  }

  /** Agreement: at any two moments of any run, the logs of any two rule-following replicas are
    * prefixes of one another. */
  lemma LogsAgree(c: Config, ys: seq<Sys>, es: seq<Event>, i: nat, j: nat, p: ReplicaId, q: ReplicaId)
    requires c.Valid() && IsRun(c, ys, es) && i <= j < |ys| && c.Honest(p) && c.Honest(q)
    ensures p in ys[i].cores && q in ys[j].cores
    ensures Comparable(ys[i].cores[p].log, ys[j].cores[q].log)
  {
    hide CoreInv, VotesOk, IsRun;
    RunInv(c, ys, es, i);
    RunInv(c, ys, es, j);
    LogGrows(c, ys, es, i, j, p);
    CoresAgree(c, ys[j].votes, ys[j].cores[p], ys[j].cores[q]);
    PrefixComparable(ys[i].cores[p].log, ys[j].cores[p].log, ys[j].cores[q].log);
  }

  lemma PrefixComparable<T>(x: seq<T>, y: seq<T>, z: seq<T>)
    requires x <= y && Comparable(y, z)
    ensures Comparable(x, z)
  {
    if z <= y {
      if |x| <= |z| {
        assert x == y[..|x|] == z[..|x|];
      } else {
        assert z == y[..|z|] == x[..|z|];
      }
    }
  }

  /** Every certified block at or above a committed height extends the committed block, whoever committed it. */
  lemma CertifiedExtendsCommitted(c: Config, ys: seq<Sys>, es: seq<Event>, i: nat, p: ReplicaId, w: Block)
    requires c.Valid() && IsRun(c, ys, es) && i < |ys| && c.Honest(p)
    requires Certified(c, ys[i].votes, w)
    ensures p in ys[i].cores
    ensures Height(w) >= Height(ys[i].cores[p].bExec) ==> Extends(w, ys[i].cores[p].bExec)
  {
    hide StoreOk, TailsOk, SignedOk, VoterOk, VotesOk, IsRun, Certified, Committed;
    RunInv(c, ys, es, i);
    if Height(w) >= Height(ys[i].cores[p].bExec) {
      Safety(c, ys[i].votes, ys[i].cores[p].bExec, w);
    }
  }

  /** How many commands the blocks hold. */
  function CmdCount(log: seq<Block>): nat {
    if log == [] then 0 else CmdCount(log[..|log| - 1]) + |log[|log| - 1].Cmds()|
  }

  /** The decision on command i of b, made by replica r. */
  predicate Decides(f: Finality, r: ReplicaId, b: Block, i: nat) {
    && i < |b.Cmds()|
    && f.rid == r && f.decision == 1
    && f.cmdIdx == i && f.cmd == b.Cmds()[i]
    && f.cmdHeight == Height(b) && f.blk == b
  }

  /** After the decisions on the earlier blocks and on the earlier commands of block k comes that on its command i. */
  predicate DecidedAt(r: ReplicaId, log: seq<Block>, decided: seq<Finality>, k: nat, i: nat)
    requires k < |log|
  {
    var at := CmdCount(log[..k]) + i;
    at < |decided| && Decides(decided[at], r, log[k], i)
  }

  /** One decision for each command of each block, in the order of the log and of the block. */
  ghost predicate DecidedInOrder(r: ReplicaId, log: seq<Block>, decided: seq<Finality>) {
    && |decided| == CmdCount(log)
    && forall k: nat, i: nat | k < |log| && i < |log[k].Cmds()| :: DecidedAt(r, log, decided, k, i)
  }

  lemma {:induction false} FinalitiesInOrder(r: ReplicaId, log: seq<Block>)
    ensures DecidedInOrder(r, log, LogFinalities(r, log))
  {
    if log != [] {
      FinalitiesInOrder(r, log[..|log| - 1]);
      OneMoreBlock(r, log, LogFinalities(r, log[..|log| - 1]));
    }
  }

  lemma OneMoreBlock(r: ReplicaId, log: seq<Block>, decided: seq<Finality>)
    requires log != [] && DecidedInOrder(r, log[..|log| - 1], decided)
    ensures var last := log[|log| - 1];
      DecidedInOrder(r, log, decided + BlockFinalities(r, Height(last), last))
  {
    hide Height;
    var init, last := log[..|log| - 1], log[|log| - 1];
    var all := decided + BlockFinalities(r, Height(last), last);
    forall k: nat, i: nat | k < |log| && i < |log[k].Cmds()| ensures DecidedAt(r, log, all, k, i) {
      if k < |init| {
        assert log[..k] == init[..k] && log[k] == init[k];
        assert DecidedAt(r, init, decided, k, i);
      } else {
        assert log[..k] == init;
        assert all[|decided| + i] == BlockFinalities(r, Height(last), last)[i];
      }
    }
  }

  /** The executed log is the path from genesis to b_exec: each block once, at consecutive heights,
    * each the child of the one before; the finalities are its commands, block by block and in each block's order;
    * and the decided blocks are genesis and the log. */
  lemma ExecutedLog(c: Config, ys: seq<Sys>, es: seq<Event>, i: nat, r: ReplicaId)
    requires c.Valid() && IsRun(c, ys, es) && i < |ys| && c.Honest(r)
    ensures r in ys[i].cores
    ensures var s := ys[i].cores[r];
      && ChainFromGenesis(s.log)
      && (s.bExec == if s.log == [] then Genesis else s.log[|s.log| - 1])
      && DecidedInOrder(r, s.log, s.decided)
      && (forall b | b in s.storage :: s.storage[b].decision <==> b == Genesis || b in s.log)
  {
    hide CoreInv, VotesOk, IsRun, ChainFromGenesis, Path, LogFinalities, DecidedInOrder;
    RunInv(c, ys, es, i);
    var s := ys[i].cores[r];
    InvExec(c, ys[i].votes, s);
    FinalitiesInOrder(r, s.log);
    PathIsChain(s.bExec);
    if s.log == [] {
      RootedAtZero(s.bExec);
    }
    forall b | b in s.storage ensures s.storage[b].decision <==> b == Genesis || b in s.log {
      InvBlk(c, ys[i].votes, s, b);
      OnPath(s.bExec, b);
    }
  }

  /** What delivery has built, in every run: derived heights are distances from genesis; a delivered block's
    * ancestors, uncles and certified block are delivered; the stored pointers name them until pruning clears
    * them; tails is exactly the delivered blocks without a delivered child; and the height-guided walk
    * decides ancestry. */
  lemma DeliveryStructure(c: Config, ys: seq<Sys>, es: seq<Event>, i: nat, r: ReplicaId, b: Block)
    requires c.Valid() && IsRun(c, ys, es) && i < |ys| && c.Honest(r)
    ensures r in ys[i].cores && StorageWired(ys[i].cores[r].storage)
    ensures var s := ys[i].cores[r];
      && (b in s.tails <==> DeliveredIn(s.storage, b) && !HasDeliveredChild(s.storage, b))
      && (DeliveredIn(s.storage, b) ==> DeliveredRight(s, b))
  {
    hide CoreInv, VotesOk, IsRun, StorageWired, DeliveredRight;
    RunInv(c, ys, es, i);
    var s := ys[i].cores[r];
    InvStore(c, ys[i].votes, s);
    TailsKnown(c, ys[i].votes, s);
    if DeliveredIn(s.storage, b) {
      DeliveredIsRight(c, ys[i].votes, s, b);
    }
  }

  ghost predicate DeliveredRight(s: Core, b: Block)
    requires StorageWired(s.storage)
  {
    && b in s.storage && s.storage[b].height == Height(b) && Extends(b, Genesis)
    && (forall a | Extends(b, a) :: DeliveredIn(s.storage, a))
    && (forall p | p in b.Parents() :: DeliveredIn(s.storage, p) && Height(p) < Height(b))
    && DeliveredIn(s.storage, b.QcObj()) && Extends(b, b.QcObj())
    && (Intact(s.storage, b) || (Cleared(s.storage, b) && Height(b) <= Height(s.bExec)))
    && forall a | DeliveredIn(s.storage, a) && Height(s.bExec) <= Height(a) ::
      && WalkDown(s.storage, b, s.storage[a].height).Some?
      && (WalkDown(s.storage, b, s.storage[a].height).value == a <==> Extends(b, a))
  }

  lemma TailsKnown(c: Config, votes: seq<Vote>, s: Core)
    requires CoreInv(c, votes, s)
    ensures forall b :: b in s.tails <==> DeliveredIn(s.storage, b) && !HasDeliveredChild(s.storage, b)
    ensures Height(s.bExec) <= Height(s.bLock)
  {
    hide StoreOk, SignedOk, VoterOk, LogOk, HasDeliveredChild, Certified, Committed, CertOk;
  }

  lemma DeliveredIsRight(c: Config, votes: seq<Vote>, s: Core, b: Block)
    requires CoreInv(c, votes, s) && StorageWired(s.storage) && DeliveredIn(s.storage, b)
    ensures DeliveredRight(s, b)
  {
    hide CoreInv, StoreOk, StorageWired, WalkDown, Admissible, SelfQcOk, Certified, CertOk, Height, Extends,
      Intact, Cleared;
    InvStore(c, votes, s);
    InvBlk(c, votes, s, b);
    QcObjDelivered(c, votes, s.storage, s.bExec, b);
    forall a | Extends(b, a) ensures DeliveredIn(s.storage, a) {
      AncestorDelivered(c, votes, s.storage, s.bExec, b, a);
    }
    forall a | DeliveredIn(s.storage, a) && Height(s.bExec) <= Height(a)
      ensures WalkDown(s.storage, b, s.storage[a].height).Some?
      ensures WalkDown(s.storage, b, s.storage[a].height).value == a <==> Extends(b, a)
    {
      WalkDecidesAncestry(c, votes, s.storage, s.bExec, b, a);
    }
  }

  /** In every run: the stored highest certificate certifies the stored highest block; b_exec is committed and
    * b_lock certified; their heights are in order; and every vote cast so far, a proposer's own included,
    * obeyed the vote rule when it was cast. */
  lemma StoredPointers(c: Config, ys: seq<Sys>, es: seq<Event>, i: nat, r: ReplicaId)
    requires c.Valid() && IsRun(c, ys, es) && i < |ys| && c.Honest(r)
    ensures r in ys[i].cores
    ensures var s := ys[i].cores[r];
      && s.hqcCert.obj == s.hqc && CertOk(c, ys[i].votes, s.hqcCert)
      && Committed(c, ys[i].votes, s.bExec) && Certified(c, ys[i].votes, s.bLock)
      && Height(s.bExec) <= Height(s.bLock) <= Height(s.hqc)
      && (c.build.ThreeStep? && s.bLock != Genesis ==> Height(s.bLock) < Height(s.hqc))
    ensures VotesOk(c, ys[i].votes)
    ensures forall b :: Vote(r, b) in ys[i].votes <==> b in ys[i].cores[r].signed
  {
    hide IsRun, StoreOk, TailsOk, LogOk, VoterOk, VotesOk;
    RunInv(c, ys, es, i);
  }
}
