/** The handlers of a rule-following replica: each keeps the invariant, none of them throws
  * "safety breached" or reads a cleared parent, and what gets signed is what the vote rule allows. */
module Handlers {
  import opened Blocks
  import opened Votes
  import opened ConsensusCore
  import opened Invariant
  import opened Preservation

  // ---------- update ----------

  /** A committed block that is not yet decided extends the last executed one. */
  lemma UndecidedExtendsExec(c: Config, votes: seq<Vote>, st: Storage, exec: Block, b: Block)
    requires c.Valid() && VotesOk(c, votes) && StoreOk(c, votes, st, exec)
    requires DeliveredIn(st, b) && !st[b].decision
    requires Committed(c, votes, exec) && Committed(c, votes, b)
    ensures Extends(b, exec)
  {
    CommittedTotal(c, votes, exec, b);
    assert BlkOk(c, votes, st, exec, b);
  }

  /** top stands at the head of the certified chain that ends in the block to lock on. */
  ghost predicate TopOf(build: Build, top: Block, blk1: Block, linked: Option<bool>) {
    if build.TwoStep? then top == blk1 && linked == Some(true)
    else top.HasParent() && top.QcObj() == blk1 && linked == Some(top.parents[0] == blk1)
  }

  /** What the stored pointers of a delivered block say while it can still matter. */
  lemma LinkOf(c: Config, votes: seq<Vote>, st: Storage, exec: Block, b: Block)
    requires c.n >= 1 && StoreOk(c, votes, st, exec) && DeliveredIn(st, b)
    requires st[b].qcRef.Some?
    ensures st[b].qcRef == Some(b.QcObj()) && st[b].parents == b.Parents() && b.QcObj() in st
    ensures b != Genesis ==> b.HasParent()
  {
    assert BlkOk(c, votes, st, exec, b);
  }

  lemma GenesisDecided(c: Config, votes: seq<Vote>, st: Storage, exec: Block)
    requires c.n >= 1 && StoreOk(c, votes, st, exec)
    ensures DeliveredIn(st, Genesis) && st[Genesis].decision
  {
    assert BlkOk(c, votes, st, exec, Genesis);
    assert BlkOk(c, votes, st, exec, exec);
  }

  lemma LockAndCommitInv(c: Config, votes: seq<Vote>, s: Core, blk1: Block, linked: Option<bool>, top: Block)
    requires CoreInv(c, votes, s) && Wired(s) && VotesOk(c, votes)
    requires DeliveredIn(s.storage, blk1) && Certified(c, votes, blk1) && !s.storage[blk1].decision
    requires LockBelowHqc(c.build, blk1, s.hqc)
    requires Certified(c, votes, top) && TopOf(c.build, top, blk1, linked)
    ensures LockAndCommit(s, blk1, linked).error.None?
    ensures CoreInv(c, votes, LockAndCommit(s, blk1, linked).core)
    ensures Quiet(s, LockAndCommit(s, blk1, linked).core)
    ensures Height(blk1) <= Height(LockAndCommit(s, blk1, linked).core.bLock)
    ensures LockAndCommit(s, blk1, linked).core.hqc == s.hqc
  {
    hide CoreInv, StoreOk, Commit, RaiseLock, PathAbove, Certified, StorageWired, Height;
    InvStore(c, votes, s);
    var s1 := RaiseLock(s, blk1);
    RaiseLockInv(c, votes, s, blk1);
    GenesisDecided(c, votes, s.storage, s.bExec);
    if s.storage[blk1].qcRef.Some? {
      LinkOf(c, votes, s.storage, s.bExec, blk1);
      var blk := blk1.QcObj();
      if !s.storage[blk].decision && linked.value && s.storage[blk1].parents[0] == blk {
        CommitChain(c, votes, s1, blk1, linked, top);
        CommitInv(c, votes, s1, blk);
        QuietTransitive(s, s1, Commit(s1, blk).core);
      }
    }
  }

  /** A chain of direct parents below a certified block may be committed. */
  lemma CommitChain(c: Config, votes: seq<Vote>, s: Core, blk1: Block, linked: Option<bool>, top: Block)
    requires CoreInv(c, votes, s) && VotesOk(c, votes)
    requires DeliveredIn(s.storage, blk1) && !s.storage[blk1].decision
    requires Height(blk1) <= Height(s.bLock)
    requires Certified(c, votes, top) && TopOf(c.build, top, blk1, linked) && linked.value
    requires blk1.HasParent() && blk1.parents[0] == blk1.QcObj()
    requires blk1.QcObj() in s.storage && !s.storage[blk1.QcObj()].decision
    ensures DeliveredIn(s.storage, blk1.QcObj())
    ensures Committed(c, votes, blk1.QcObj())
    ensures Extends(blk1.QcObj(), s.bExec)
    ensures Height(blk1.QcObj()) <= Height(s.bLock)
  {
    var blk := blk1.QcObj();
    QcObjDelivered(c, votes, s.storage, s.bExec, blk1);
    assert CommittedBy(c, votes, blk, top);
    UndecidedExtendsExec(c, votes, s.storage, s.bExec, blk);
  }

  /** Decided blocks, and blocks whose pointers are gone, are no higher than the lock. */
  lemma LowIfDone(c: Config, votes: seq<Vote>, s: Core, b: Block)
    requires CoreInv(c, votes, s) && DeliveredIn(s.storage, b)
    requires s.storage[b].decision || s.storage[b].qcRef.None?
    ensures Height(b) <= Height(s.bLock)
  {
    assert BlkOk(c, votes, s.storage, s.bExec, b);
    if s.storage[b].decision {
      ExtendsHeight(s.bExec, b);
    }
  }

  /** update never throws, keeps the invariant, and leaves the lock at least as high as nblk demands. */
  lemma UpdateInv(c: Config, votes: seq<Vote>, s: Core, nblk: Block)
    requires CoreInv(c, votes, s) && Wired(s) && VotesOk(c, votes)
    requires DeliveredIn(s.storage, nblk)
    ensures Update(c.build, s, nblk).error.None?
    ensures CoreInv(c, votes, Update(c.build, s, nblk).core)
    ensures Quiet(s, Update(c.build, s, nblk).core)
    ensures Height(LockTarget(c.build, nblk)) <= Height(Update(c.build, s, nblk).core.bLock)
    ensures nblk.QcObj() == s.hqc ==> Update(c.build, s, nblk).core.hqc == s.hqc
  {
    var st := s.storage;
    QcObjDelivered(c, votes, st, s.bExec, nblk);
    var blk2 := nblk.QcObj();
    QcObjDelivered(c, votes, st, s.bExec, blk2);
    if st[nblk].qcRef.None? {
      LowIfDone(c, votes, s, nblk);
    } else {
      LinkOf(c, votes, st, s.bExec, nblk);
      if st[blk2].decision {
        LowIfDone(c, votes, s, blk2);
      } else {
        UpdateUndecided(c, votes, s, nblk);
      }
    }
  }

  lemma UpdateUndecided(c: Config, votes: seq<Vote>, s: Core, nblk: Block)
    requires CoreInv(c, votes, s) && Wired(s) && VotesOk(c, votes)
    requires DeliveredIn(s.storage, nblk) && CertOk(c, votes, nblk.Qc())
    requires s.storage[nblk].qcRef == Some(nblk.QcObj())
    requires DeliveredIn(s.storage, nblk.QcObj()) && !s.storage[nblk.QcObj()].decision
    requires Certified(c, votes, nblk.QcObj())
    ensures Update(c.build, s, nblk).error.None?
    ensures CoreInv(c, votes, Update(c.build, s, nblk).core)
    ensures Quiet(s, Update(c.build, s, nblk).core)
    ensures Height(LockTarget(c.build, nblk)) <= Height(Update(c.build, s, nblk).core.bLock)
    ensures nblk.QcObj() == s.hqc ==> Update(c.build, s, nblk).core.hqc == s.hqc
  {
    hide LockAndCommit, UpdateHqc, Quiet, Certified, CertOk, TailsOk, LogOk, SignedOk, VoterOk;
    var st, blk2 := s.storage, nblk.QcObj();
    var s1 := UpdateHqc(s, blk2, nblk.Qc());
    UpdateHqcInv(c, votes, s, blk2, nblk.Qc());
    GenesisDecided(c, votes, st, s.bExec);
    if c.build.TwoStep? {
      LockAndCommitInv(c, votes, s1, blk2, Some(true), blk2);
      QuietTransitive(s, s1, LockAndCommit(s1, blk2, Some(true)).core);
    } else {
      QcObjDelivered(c, votes, st, s.bExec, blk2);
      var blk1 := blk2.QcObj();
      if st[blk2].qcRef.None? {
        LowIfDone(c, votes, s, blk2);
      } else {
        LinkOf(c, votes, st, s.bExec, blk2);
        if st[blk1].decision {
          LowIfDone(c, votes, s, blk1);
        } else {
          LockAndCommitInv(c, votes, s1, blk1, Some(blk2.parents[0] == blk1), blk2);
          QuietTransitive(s, s1, LockAndCommit(s1, blk1, Some(blk2.parents[0] == blk1)).core);
        }
      }
    }
  }

  // ---------- signing ----------

  /** Signing b under the vote rule: the new vote is a good one and the invariant holds with it. */
  lemma SignInv(c: Config, votes: seq<Vote>, s: Core, b: Block)
    requires CoreInv(c, votes, s) && VotesOk(c, votes) && DeliveredIn(s.storage, b) && b != Genesis
    requires VoteRule(s, b) && Height(LockTarget(c.build, b)) <= Height(s.bLock)
    ensures VotesOk(c, votes + [Vote(s.id, b)])
    ensures CoreInv(c, votes + [Vote(s.id, b)], s.(vheight := Height(b), signed := s.signed + [b]))
  {
    hide StoreOk, Certified, Committed, CertOk, LogOk, TailsOk;
    var more := votes + [Vote(s.id, b)];
    InvBlk(c, votes, s, b);
    assert VoteOk(c, votes, s.id, b) by {
      forall v | v in votes && v.voter == s.id
        ensures Height(v.blk) < Height(b) && Height(LockTarget(c.build, v.blk)) <= Height(s.bLock)
      {
        assert v == Vote(s.id, v.blk);
      }
      assert Justifies(c, votes, s.id, b, s.bLock);
    }
    VotesOkExtend(c, votes, s.id, b);
    StoreOkMonotone(c, votes, more, s.storage, s.bExec);
    PtrsOkMonotone(c, votes, more, s.storage, s.bExec, s.bLock, s.hqc, s.hqcCert);
  }

  /** The votes a step from s to s' adds to the log. */
  function VotesAfter(votes: seq<Vote>, s: Core, s': Core): seq<Vote> {
    if s'.signed == s.signed || s'.signed == [] then votes
    else votes + [Vote(s.id, s'.signed[|s'.signed| - 1])]
  }

  /** What every handler guarantees. */
  ghost predicate Safe(c: Config, votes: seq<Vote>, s: Core, o: Outcome) {
    && c.Valid()
    && o.error != Some(SafetyBreached)
    && o.error != Some(DanglingRead)
    && o.core.id == s.id
    && s.log <= o.core.log
    && VotesOk(c, VotesAfter(votes, s, o.core))
    && CoreInv(c, VotesAfter(votes, s, o.core), o.core)
  }

  lemma ReceiveProposalSafe(c: Config, votes: seq<Vote>, s: Core, b: Block)
    requires CoreInv(c, votes, s) && Wired(s) && VotesOk(c, votes)
    requires b in s.storage
    ensures Safe(c, votes, s, ReceiveProposal(c.build, s, b))
  {
    hide Update, Opinion, StoreOk, Certified, Committed, CertOk, TailsOk, LogOk, SignedOk;
    if s.storage[b].delivered {
      UpdateInv(c, votes, s, b);
      var s1 := Update(c.build, s, b).core;
      assert DeliveredIn(s1.storage, b);
      OpinionIsVoteRule(c, votes, s1, b);
      if VoteRule(s1, b) {
        StoredHeight(c, votes, s1.storage, s1.bExec, b);
        if s.voteDisabled {
          assert CoreInv(c, votes, s1.(vheight := Height(b)));
        } else {
          SignInv(c, votes, s1, b);
          NoSelfAppend(s.signed, b);
        }
      }
    }
  }

  lemma NoSelfAppend<T>(q: seq<T>, x: T)
    ensures q + [x] != q
  {
    assert |q + [x]| == |q| + 1;
  }

  // ---------- votes and certificates ----------

  /** One more signature in the certificate collected for b, from a voter who did vote for b if it is honest. */
  lemma AddPartInv(c: Config, votes: seq<Vote>, s: Core, b: Block, voter: ReplicaId)
    requires CoreInv(c, votes, s) && Wired(s) && b in s.storage
    requires voter < c.n && (c.Honest(voter) ==> Vote(voter, b) in votes)
    ensures CoreInv(c, votes, AddPart(s, b, voter)) && Quiet(s, AddPart(s, b, voter))
  {
    hide CoreInv, StorageWired, DeliveredOk, InfoWired, Extends;
    InvBlk(c, votes, s, b);
    InvTouched(c, votes, s, b, AddPart(s, b, voter).storage[b]);
  }

  lemma AddVoterInv(c: Config, votes: seq<Vote>, s: Core, b: Block, voter: ReplicaId)
    requires CoreInv(c, votes, s) && Wired(s) && b in s.storage
    ensures CoreInv(c, votes, AddVoter(s, b, voter)) && Quiet(s, AddVoter(s, b, voter))
  {
    hide CoreInv, StorageWired, DeliveredOk, InfoWired, Extends;
    InvBlk(c, votes, s, b);
    InvTouched(c, votes, s, b, AddVoter(s, b, voter).storage[b]);
  }

  lemma OpenSelfQcInv(c: Config, votes: seq<Vote>, s: Core, b: Block)
    requires CoreInv(c, votes, s) && Wired(s) && b in s.storage
    ensures CoreInv(c, votes, OpenSelfQc(s, b)) && Quiet(s, OpenSelfQc(s, b))
    ensures OpenSelfQc(s, b).hqc == s.hqc
  {
    hide CoreInv, StorageWired, DeliveredOk, InfoWired, Extends;
    InvBlk(c, votes, s, b);
    if s.storage[b].selfQc.None? {
      InvTouched(c, votes, s, b, OpenSelfQc(s, b).storage[b]);
    }
  }

  lemma ReceiveVoteInv(c: Config, votes: seq<Vote>, s: Core, b: Block, voter: ReplicaId, carriedFull: bool)
    requires CoreInv(c, votes, s) && Wired(s)
    requires voter == s.id ==> Vote(voter, b) in votes
    ensures CoreInv(c, votes, ReceiveVote(s, b, voter, carriedFull).core)
    ensures Quiet(s, ReceiveVote(s, b, voter, carriedFull).core)
    ensures ReceiveVote(s, b, voter, carriedFull).error in {None, Some(NotDelivered)}
  {
    hide AddPart, AddVoter, UpdateHqc, VoterOk, TailsOk, LogOk, Certified, Committed;
    if DeliveredIn(s.storage, b) && voter !in s.storage[b].voted {
      var s1 := AddVoter(s, b, voter);
      AddVoterInv(c, votes, s, b, voter);
      if voter == s.id && !carriedFull {
        var s2 := AddPart(s1, b, voter);
        AddPartInv(c, votes, s1, b, voter);
        assert BlkOk(c, votes, s2.storage, s2.bExec, b);
        var qc := s2.storage[b].selfQc.value;
        if |qc.signers| >= s.nmajority {
          UpdateHqcInv(c, votes, s2, b, qc);
        }
      }
    }
  }

  // ---------- proposing ----------

  /** The proposer's self-vote skips the lock test, yet it obeys the vote rule: its block carries
    * the highest certificate and extends what that certifies. */
  lemma SelfVoteObeysRule(c: Config, votes: seq<Vote>, s: Core, b: Block)
    requires CoreInv(c, votes, s) && VotesOk(c, votes) && DeliveredIn(s.storage, b) && b != Genesis
    requires b.QcObj() == s.hqc && Height(LockTarget(c.build, b)) <= Height(s.bLock)
    requires Height(b) > s.vheight
    ensures VoteRule(s, b)
    ensures c.build.ThreeStep? ==> Height(b.QcObj()) > Height(s.bLock) || s.bLock == Genesis
    ensures c.build.TwoStep? ==> b.QcObj() == s.bLock
  {
    assert BlkOk(c, votes, s.storage, s.bExec, b);
    if c.build.TwoStep? {
      CertifiedUnique(c, votes, s.bLock, s.hqc);
    }
  }

  lemma ProcessBlockSafe(c: Config, votes: seq<Vote>, s: Core, b: Block, carriedFull: bool)
    requires CoreInv(c, votes, s) && Wired(s) && VotesOk(c, votes) && b in s.storage
    requires Admissible(c, votes, b) && LowerParents(b) && b.QcObj() == s.hqc
    ensures Safe(c, votes, s, ProcessBlock(c.build, s, b, true, carriedFull))
  {
    hide Deliver, Update, OpenSelfQc, CoreInv, ReceiveVote;
    var s1 := OpenSelfQc(s, b);
    OpenSelfQcInv(c, votes, s, b);
    var d := Deliver(s1, b);
    DeliverInv(c, votes, s1, b);
    DeliverQuiet(s1, b);
    if d.error.None? {
      UpdateInv(c, votes, d.core, b);
      ProcessVote(c, votes, d.core, b, carriedFull);
    }
  }

  lemma DeliverQuiet(s: Core, b: Block)
    requires Wired(s) && b in s.storage
    ensures Quiet(s, Deliver(s, b).core) && Deliver(s, b).core.hqc == s.hqc
    ensures Deliver(s, b).error in {None, Some(NotDelivered), Some(DanglingRead), Some(QcNotFetched)}
  {
  }

  /** The rest of process_block, once the block is delivered. */
  lemma ProcessVote(c: Config, votes: seq<Vote>, s: Core, b: Block, carriedFull: bool)
    requires CoreInv(c, votes, s) && Wired(s) && VotesOk(c, votes) && DeliveredIn(s.storage, b)
    requires b != Genesis && b.QcObj() == s.hqc
    ensures var u := Update(c.build, s, b).core;
      var h := u.storage[b].height;
      var s2 := u.(vheight := h, signed := u.signed + [b]);
      h > u.vheight ==> Safe(c, votes, s, ReceiveVote(s2, b, s2.id, carriedFull))
  {
    hide Update, ReceiveVote, CoreInv, VotesOk, Height, VoteRule, LockTarget, StorageWired;
    UpdateInv(c, votes, s, b);
    var u := Update(c.build, s, b).core;
    assert DeliveredIn(u.storage, b);
    InvHeight(c, votes, u, b);
    InvHeight(c, votes, s, b);
    if Height(b) > u.vheight {
      SelfVoteObeysRule(c, votes, u, b);
      SignInv(c, votes, u, b);
      var s2 := u.(vheight := Height(b), signed := u.signed + [b]);
      var more := votes + [Vote(s.id, b)];
      assert more[|votes|] == Vote(s2.id, b);
      ReceiveVoteInv(c, more, s2, b, s2.id, carriedFull);
      NoSelfAppend(s.signed, b);
      var o := ReceiveVote(s2, b, s2.id, carriedFull);
      assert VotesAfter(votes, s, o.core) == more;
      assert s.log <= u.log <= o.core.log;
    }
  }

  lemma AddNewInv(c: Config, votes: seq<Vote>, s: Core, b: Block)
    requires CoreInv(c, votes, s) && Wired(s) && b.HasParent() && b.QcObj() == s.hqc
    requires forall p | p in b.parents :: p in s.storage
    ensures CoreInv(c, votes, AddNew(s, b))
  {
    if b !in s.storage {
      InvUndelivered(c, votes, s, b, AddNew(s, b).storage[b]);
    }
  }

  /** on_propose takes the parents off the tails before the new block is delivered; delivery does
    * the same again, so the early removal makes no difference. */
  lemma EarlyErasure(s: Core, b: Block)
    requires Wired(s) && b in s.storage && s.pipedQueue == []
    requires b.HasParent() && b.QcObj() in s.storage
    requires forall p | p in b.parents :: DeliveredIn(s.storage, p)
    requires TailsOk(s.storage, s.tails)
    ensures Deliver(s.(tails := s.tails - (set p | p in b.parents)), b) == Deliver(s, b)
  {
    var cut := set p | p in b.parents;
    if s.storage[b].delivered {
      forall p | p in cut ensures p !in s.tails {
        assert DeliveredIn(s.storage, b) && p in b.Parents();
      }
      assert s.tails - cut == s.tails;
    } else {
      hide TailsOk, Deliver;
      DeliverForm(s, b);
      DeliverForm(s.(tails := s.tails - cut), b);
      assert (s.tails - cut) - cut + {b} == s.tails - cut + {b};
    }
  }

  /** Delivery with every parent at hand. */
  lemma DeliverForm(s: Core, b: Block)
    requires Wired(s) && b in s.storage && s.pipedQueue == [] && !s.storage[b].delivered
    requires b.HasParent() && b.QcObj() in s.storage
    requires forall p | p in b.parents :: DeliveredIn(s.storage, p)
    ensures b.parents[0] in s.storage
    ensures Deliver(s, b) == Outcome(s.(storage := s.storage[b := DeliveredInfo(s.storage, b)],
                                        tails := s.tails - (set p | p in b.parents) + {b}), None)
  {
    hide StorageWired;
    assert b.parents[0] in b.parents;
    ResolvesAll(s, b.parents);
  }

  lemma ResolvesAll(s: Core, ps: seq<Block>)
    requires forall p | p in ps :: DeliveredIn(s.storage, p)
    ensures ResolvedParents(s, ps) == ps
  {
  }

  lemma NewBlockAdmissible(c: Config, votes: seq<Vote>, s: Core, cmds: seq<Command>, parents: seq<Block>,
    extra: seq<nat>)
    requires CoreInv(c, votes, s) && parents != [] && Extends(parents[0], s.hqc)
    requires forall p | p in parents :: Height(p) <= Height(parents[0])
    ensures var b := NewBlock(s, cmds, parents, extra);
      Admissible(c, votes, b) && LowerParents(b) && b.QcObj() == s.hqc
  {
  }

  /** Proposing on a delivered block that extends the highest certified one. */
  lemma ProposeSafe(c: Config, votes: seq<Vote>, s: Core, cmds: seq<Command>, parents: seq<Block>,
                    extra: seq<nat>, carriedFull: bool)
    requires CoreInv(c, votes, s) && Wired(s) && VotesOk(c, votes)
    requires forall p | p in parents :: DeliveredIn(s.storage, p)
    requires parents != [] ==> Extends(parents[0], s.hqc)
    requires forall p | p in parents :: Height(p) <= Height(parents[0])
    ensures Safe(c, votes, s, Propose(c.build, s, cmds, parents, extra, carriedFull))
  {
    hide ProcessBlock, Deliver;
    if parents != [] {
      var b := NewBlock(s, cmds, parents, extra);
      NewBlockAdmissible(c, votes, s, cmds, parents, extra);
      AddNewInv(c, votes, s, b);
      ProcessBlockSafe(c, votes, AddNew(s, b), b, carriedFull);
      ProposeIgnoresErasure(c, votes, s, b, carriedFull);
    }
  }

  lemma ProposeIgnoresErasure(c: Config, votes: seq<Vote>, s: Core, b: Block, carriedFull: bool)
    requires CoreInv(c, votes, s) && Wired(s) && b.HasParent() && b.QcObj() == s.hqc
    requires forall p | p in b.parents :: DeliveredIn(s.storage, p)
    ensures ProcessBlock(c.build, AddNew(s.(tails := s.tails - (set p | p in b.parents)), b), b, true, carriedFull)
         == ProcessBlock(c.build, AddNew(s, b), b, true, carriedFull)
  {
    hide ProcessBlock, Deliver, StoreOk, AddNew, OpenSelfQc;
    AddNewInv(c, votes, s, b);
    var s1 := AddNew(s, b);
    OpenSelfQcInv(c, votes, s1, b);
    var tails := s.tails - (set p | p in b.parents);
    AddNewTails(s, b, tails);
    OpenSelfQcTails(s1, b, tails);
    EarlyErasure(OpenSelfQc(s1, b), b);
    SameDelivery(c.build, AddNew(s.(tails := tails), b), s1, b, carriedFull);
  }

  /** From delivery on, process_block looks only at what delivery left. */
  lemma SameDelivery(build: Build, s: Core, s': Core, b: Block, carriedFull: bool)
    requires Wired(s) && b in s.storage && Wired(s') && b in s'.storage
    requires Deliver(OpenSelfQc(s, b), b) == Deliver(OpenSelfQc(s', b), b)
    ensures ProcessBlock(build, s, b, true, carriedFull) == ProcessBlock(build, s', b, true, carriedFull)
  {
    hide Update, ReceiveVote, Deliver, OpenSelfQc, Wired;
  }

  lemma AddNewTails(s: Core, b: Block, tails: set<Block>)
    requires Wired(s) && b.HasParent() && b.QcObj() == s.hqc
    requires forall p | p in b.parents :: p in s.storage
    ensures AddNew(s.(tails := tails), b) == AddNew(s, b).(tails := tails)
    ensures AddNew(s, b).tails == s.tails && AddNew(s, b).hqc == s.hqc && Grows(s.storage, AddNew(s, b).storage)
  {
  }

  lemma OpenSelfQcTails(s: Core, b: Block, tails: set<Block>)
    requires Wired(s) && b in s.storage
    ensures OpenSelfQc(s.(tails := tails), b) == OpenSelfQc(s, b).(tails := tails)
    ensures OpenSelfQc(s, b).tails == s.tails
  {
  }
}
