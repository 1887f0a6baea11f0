/** The update rule without its short cuts.
  *
  * update returns early on decided blocks and on blocks whose pointers pruning has cleared.
  * The plain rule below looks at block heights and parents only: take the higher certificate,
  * take the higher lock, and commit the chain's head if it is above b_exec.  In every state
  * that satisfies the invariant the two give the same state. */
module PlainRule {
  import opened Blocks
  import opened Votes
  import opened ConsensusCore
  import opened Invariant
  import opened Preservation
  import opened Handlers

  function TakeHqc(s: Core, b: Block, qc: Cert): Core {
    if Height(b) > Height(s.hqc) then s.(hqc := b, hqcCert := qc) else s
  }

  function TakeLock(s: Core, b: Block): Core {
    if Height(b) > Height(s.bLock) then s.(bLock := b) else s
  }

  /** Execute b and everything between it and b_exec. */
  function Execute(s: Core, b: Block): Core {
    var q := PathAbove(b, Height(s.bExec));
    s.(storage := MarkDecided(s.storage, q), log := s.log + q,
       decided := s.decided + LogFinalities(s.id, q), bExec := b)
  }

  ghost function TakeChain(build: Build, s: Core, top: Block, b: Block): Core {
    if ChainHead(build, top, b) && Height(b) > Height(s.bExec) then Execute(s, b) else s
  }

  ghost function PlainUpdate(build: Build, s: Core, nblk: Block): Core {
    var top, lock := nblk.QcObj(), LockTarget(build, nblk);
    TakeChain(build, TakeLock(TakeHqc(s, top, nblk.Qc()), lock), top, lock.QcObj())
  }

  /** The two shapes of the commit step. */
  lemma CommitIsExecute(c: Config, votes: seq<Vote>, s: Core, b: Block)
    requires c.n >= 1 && Wired(s) && StoreOk(c, votes, s.storage, s.bExec) && DeliveredIn(s.storage, b)
    requires Extends(b, s.bExec)
    ensures Commit(s, b) == Outcome(Execute(s, b), None)
  {
    hide StoreOk, StorageWired, MarkDecided, Finalities, LogFinalities, PathAbove, WalkDown, Passed;
    CommitWalk(c, votes, s, b);
  }

  /** Decided blocks and cleared blocks lie at or below the last executed height. */
  lemma DoneIsLow(c: Config, votes: seq<Vote>, s: Core, b: Block)
    requires CoreInv(c, votes, s) && DeliveredIn(s.storage, b)
    requires s.storage[b].decision || s.storage[b].qcRef.None?
    ensures Height(b) <= Height(s.bExec)
  {
    InvBlk(c, votes, s, b);
    if s.storage[b].decision {
      ExtendsHeight(s.bExec, b);
    }
  }

  /** The order of the replica's pointers: b_exec, then b_lock, then the highest certified block. */
  lemma PointerOrder(c: Config, votes: seq<Vote>, s: Core)
    requires CoreInv(c, votes, s)
    ensures Height(s.bExec) <= Height(s.bLock) <= Height(s.hqc)
    ensures c.build.ThreeStep? && s.bLock != Genesis ==> Height(s.bLock) < Height(s.hqc)
  {
  }

  /** So a chain through a low block changes nothing. */
  lemma LowLockDoesNothing(c: Config, votes: seq<Vote>, s: Core, top: Block, lock: Block)
    requires CoreInv(c, votes, s) && DeliveredIn(s.storage, lock) && Height(lock) <= Height(s.bExec)
    ensures TakeChain(c.build, TakeLock(s, lock), top, lock.QcObj()) == s
  {
    PointerOrder(c, votes, s);
    InvStore(c, votes, s);
    QcObjDelivered(c, votes, s.storage, s.bExec, lock);
  }

  lemma LowTopDoesNothing(c: Config, votes: seq<Vote>, s: Core, nblk: Block)
    requires CoreInv(c, votes, s) && DeliveredIn(s.storage, nblk) && Height(nblk.QcObj()) <= Height(s.bExec)
    ensures PlainUpdate(c.build, s, nblk) == s
  {
    PointerOrder(c, votes, s);
    InvStore(c, votes, s);
    QcObjDelivered(c, votes, s.storage, s.bExec, nblk);
    QcObjDelivered(c, votes, s.storage, s.bExec, nblk.QcObj());
    LowLockDoesNothing(c, votes, s, nblk.QcObj(), LockTarget(c.build, nblk));
  }

  lemma LockAndCommitIsPlain(c: Config, votes: seq<Vote>, s: Core, blk1: Block, linked: Option<bool>, top: Block)
    requires CoreInv(c, votes, s) && Wired(s) && VotesOk(c, votes)
    requires DeliveredIn(s.storage, blk1) && Certified(c, votes, blk1) && !s.storage[blk1].decision
    requires LockBelowHqc(c.build, blk1, s.hqc)
    requires Certified(c, votes, top) && TopOf(c.build, top, blk1, linked)
    ensures LockAndCommit(s, blk1, linked) == Outcome(TakeChain(c.build, TakeLock(s, blk1), top, blk1.QcObj()), None)
  {
    hide CoreInv, Commit, Execute, StorageWired, Certified, VotesOk;
    InvStore(c, votes, s);
    RaiseLockInv(c, votes, s, blk1);
    LockIsPlain(c, votes, s, blk1);
    GenesisDecided(c, votes, s.storage, s.bExec);
    QcObjDelivered(c, votes, s.storage, s.bExec, blk1);
    var s1, blk := RaiseLock(s, blk1), blk1.QcObj();
    assert s1.bExec == s.bExec && s1.storage == s.storage;
    if s.storage[blk1].qcRef.None? {
      DoneIsLow(c, votes, s, blk1);
    } else {
      LinkOf(c, votes, s.storage, s.bExec, blk1);
      if s.storage[blk].decision {
        DoneIsLow(c, votes, s, blk);
      } else if linked.value && blk1.parents[0] == blk {
        CommitChain(c, votes, s1, blk1, linked, top);
        CommitIsExecute(c, votes, s1, blk);
        UndecidedIsAbove(c, votes, s, blk);
      }
    }
  }

  lemma LockIsPlain(c: Config, votes: seq<Vote>, s: Core, b: Block)
    requires CoreInv(c, votes, s) && Wired(s) && DeliveredIn(s.storage, b)
    ensures RaiseLock(s, b) == TakeLock(s, b)
  {
    InvHeight(c, votes, s, b);
    InvHeight(c, votes, s, s.bLock);
  }

  lemma HqcIsPlain(c: Config, votes: seq<Vote>, s: Core, b: Block, qc: Cert)
    requires CoreInv(c, votes, s) && Wired(s) && DeliveredIn(s.storage, b)
    ensures UpdateHqc(s, b, qc) == TakeHqc(s, b, qc)
  {
    InvHeight(c, votes, s, b);
    InvHeight(c, votes, s, s.hqc);
  }

  lemma UndecidedIsAbove(c: Config, votes: seq<Vote>, s: Core, b: Block)
    requires CoreInv(c, votes, s) && DeliveredIn(s.storage, b) && !s.storage[b].decision && Extends(b, s.bExec)
    ensures Height(b) > Height(s.bExec)
  {
    InvBlk(c, votes, s, b);
    ExtendsHeight(b, s.bExec);
  }

  /** The short cuts are sound: update is the plain rule. */
  lemma UpdateIsPlain(c: Config, votes: seq<Vote>, s: Core, nblk: Block)
    requires CoreInv(c, votes, s) && Wired(s) && VotesOk(c, votes) && DeliveredIn(s.storage, nblk)
    ensures Update(c.build, s, nblk) == Outcome(PlainUpdate(c.build, s, nblk), None)
  {
    hide CoreInv, LockAndCommit, PlainUpdate, Certified, CertOk, VotesOk, StorageWired, UpdateHqc;
    InvStore(c, votes, s);
    var st, blk2 := s.storage, nblk.QcObj();
    QcObjDelivered(c, votes, st, s.bExec, nblk);
    if st[nblk].qcRef.None? || st[blk2].decision {
      if st[nblk].qcRef.None? {
        DoneIsLow(c, votes, s, nblk);
      } else {
        LinkOf(c, votes, st, s.bExec, nblk);
        DoneIsLow(c, votes, s, blk2);
      }
      LowTopDoesNothing(c, votes, s, nblk);
    } else {
      LinkOf(c, votes, st, s.bExec, nblk);
      UpdateFromTop(c, votes, s, nblk);
    }
  }

  lemma UpdateFromTop(c: Config, votes: seq<Vote>, s: Core, nblk: Block)
    requires CoreInv(c, votes, s) && Wired(s) && VotesOk(c, votes) && DeliveredIn(s.storage, nblk)
    requires s.storage[nblk].qcRef == Some(nblk.QcObj()) && DeliveredIn(s.storage, nblk.QcObj())
    requires !s.storage[nblk.QcObj()].decision
    ensures Update(c.build, s, nblk) == Outcome(PlainUpdate(c.build, s, nblk), None)
  {
    hide CoreInv, LockAndCommit, TakeChain, TakeLock, TakeHqc, VotesOk, StorageWired, UpdateHqc, StoreOk;
    InvStore(c, votes, s);
    var st, blk2 := s.storage, nblk.QcObj();
    QcObjDelivered(c, votes, st, s.bExec, nblk);
    HqcIsPlain(c, votes, s, blk2, nblk.Qc());
    UpdateHqcInv(c, votes, s, blk2, nblk.Qc());
    var s1 := UpdateHqc(s, blk2, nblk.Qc());
    SameExec(s, blk2, nblk.Qc());
    if c.build.TwoStep? {
      LockAndCommitIsPlain(c, votes, s1, blk2, Some(true), blk2);
    } else {
      GenesisDecided(c, votes, st, s.bExec);
      QcObjDelivered(c, votes, st, s.bExec, blk2);
      var blk1 := blk2.QcObj();
      if st[blk2].qcRef.None? || st[blk1].decision {
        if st[blk2].qcRef.None? {
          DoneIsLow(c, votes, s, blk2);
        } else {
          LinkOf(c, votes, st, s.bExec, blk2);
          DoneIsLow(c, votes, s, blk1);
        }
        LowLockDoesNothing(c, votes, s1, blk2, blk1);
      } else {
        LinkOf(c, votes, st, s.bExec, blk2);
        LockAndCommitIsPlain(c, votes, s1, blk1, Some(blk2.parents[0] == blk1), blk2);
      }
    }
  }

  lemma SameExec(s: Core, b: Block, qc: Cert)
    requires Wired(s) && b in s.storage
    ensures UpdateHqc(s, b, qc).bExec == s.bExec && UpdateHqc(s, b, qc).bLock == s.bLock
  {
  }

  /** In the two-step build the certificate-above-lock branch of the vote rule never decides a vote:
    * after update the lock is as high as the carried certificate, so only extensions of the lock get votes. */
  lemma TwoStepVotesExtendLock(c: Config, votes: seq<Vote>, s: Core, b: Block)
    requires CoreInv(c, votes, s) && Wired(s) && VotesOk(c, votes) && DeliveredIn(s.storage, b)
    requires c.build.TwoStep?
    ensures var u := Update(c.build, s, b).core;
      && Height(b.QcObj()) <= Height(u.bLock)
      && Opinion(u, b) == Some(Height(b) > u.vheight && Extends(b, u.bLock))
  {
    hide Update, Opinion, StoreOk;
    UpdateInv(c, votes, s, b);
    var u := Update(c.build, s, b).core;
    assert DeliveredIn(u.storage, b);
    OpinionIsVoteRule(c, votes, u, b);
  }
}
