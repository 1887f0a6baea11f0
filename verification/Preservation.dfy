/** Every handler of a rule-following replica keeps the invariant, and none of them
  * can reach the "safety breached" throw or read a cleared parent. */
module Preservation {
  import opened Blocks
  import opened Votes
  import opened ConsensusCore
  import opened Invariant

  // ---------- storage changes ----------

  /** Blocks stay stored and delivered blocks stay delivered. */
  predicate Grows(st: Storage, st': Storage) {
    forall p | p in st :: p in st' && (st[p].delivered ==> st'[p].delivered)
  }

  /** A step that signs nothing and only adds to what is stored and executed. */
  predicate Quiet(s: Core, s': Core) {
    && s'.id == s.id && s'.nmajority == s.nmajority && s'.vheight == s.vheight
    && s'.pipedQueue == s.pipedQueue && s'.voteDisabled == s.voteDisabled && s'.signed == s.signed
    && s.log <= s'.log
    && Grows(s.storage, s'.storage)
  }

  lemma QuietTransitive(s: Core, s': Core, s'': Core)
    requires Quiet(s, s') && Quiet(s', s'')
    ensures Quiet(s, s'')
  {
  }

  /** Nothing but votes and collected signatures of a block differs. */
  predicate SameLinks(i: Info, i': Info) {
    i' == i.(voted := i'.voted, selfQc := i'.selfQc)
  }

  lemma BlkOkGrows(c: Config, votes: seq<Vote>, st: Storage, st': Storage, exec: Block, x: Block)
    requires c.n >= 1 && x in st && x in st' && BlkOk(c, votes, st, exec, x)
    requires Grows(st, st') && SameLinks(st[x], st'[x]) && SelfQcOk(c, votes, st', x)
    ensures BlkOk(c, votes, st', exec, x)
  {
    if st[x].delivered {
      assert ParentsDelivered(st', x);
    }
  }

  /** A block that is not delivered is no ancestor of the last executed one. */
  lemma UndeliveredNotExecuted(c: Config, votes: seq<Vote>, st: Storage, exec: Block, b: Block)
    requires c.n >= 1 && StoreOk(c, votes, st, exec) && !DeliveredIn(st, b)
    ensures !Extends(exec, b)
  {
    if Extends(exec, b) {
      AncestorDelivered(c, votes, st, exec, exec, b);
    }
  }

  /** Storing i for a block that is not delivered, and stays so. */
  lemma StoreOkUndelivered(c: Config, votes: seq<Vote>, st: Storage, exec: Block, b: Block, i: Info)
    requires c.n >= 1 && StoreOk(c, votes, st, exec) && !DeliveredIn(st, b)
    requires !i.delivered && !i.decision
    requires StorageWired(st[b := i]) && SelfQcOk(c, votes, st[b := i], b)
    ensures StoreOk(c, votes, st[b := i], exec)
  {
    var st' := st[b := i];
    UndeliveredNotExecuted(c, votes, st, exec, b);
    forall x | x in st' ensures BlkOk(c, votes, st', exec, x) {
      if x != b {
        assert BlkOk(c, votes, st, exec, x);
        BlkOkGrows(c, votes, st, st', exec, x);
      } else {
        assert BlkOk(c, votes, st, exec, Genesis);
      }
    }
  }

  /** Changing only votes and collected signatures. */
  lemma StoreOkTouched(c: Config, votes: seq<Vote>, st: Storage, exec: Block, b: Block, i: Info)
    requires c.n >= 1 && StoreOk(c, votes, st, exec) && b in st
    requires SameLinks(st[b], i) && SelfQcOk(c, votes, st[b := i], b)
    ensures StoreOk(c, votes, st[b := i], exec)
  {
    var st' := st[b := i];
    assert InfoWired(st, b);
    WiredAfter(st, b, i);
    forall x | x in st' ensures BlkOk(c, votes, st', exec, x) {
      assert BlkOk(c, votes, st, exec, x);
      BlkOkGrows(c, votes, st, st', exec, x);
    }
  }

  /** The tails and the pointers look at storage only to ask what is delivered. */
  lemma TailsSame(st: Storage, st': Storage, tails: set<Block>)
    requires TailsOk(st, tails)
    requires forall b :: DeliveredIn(st', b) <==> DeliveredIn(st, b)
    ensures TailsOk(st', tails)
  {
    forall b ensures HasDeliveredChild(st', b) <==> HasDeliveredChild(st, b) {
      if HasDeliveredChild(st', b) {
        var k :| DeliveredIn(st', k) && b in k.Parents();
        assert DeliveredIn(st, k);
      }
      if HasDeliveredChild(st, b) {
        var k :| DeliveredIn(st, k) && b in k.Parents();
        assert DeliveredIn(st', k);
      }
    }
  }

  /** Replacing the storage by one with the same delivered blocks. */
  lemma InvNewStorage(c: Config, votes: seq<Vote>, s: Core, st: Storage)
    requires CoreInv(c, votes, s) && StoreOk(c, votes, st, s.bExec)
    requires forall b :: DeliveredIn(st, b) <==> DeliveredIn(s.storage, b)
    ensures CoreInv(c, votes, s.(storage := st))
  {
    TailsSame(s.storage, st, s.tails);
  }

  lemma InvUndelivered(c: Config, votes: seq<Vote>, s: Core, b: Block, i: Info)
    requires CoreInv(c, votes, s) && !DeliveredIn(s.storage, b)
    requires !i.delivered && !i.decision
    requires StorageWired(s.storage[b := i]) && SelfQcOk(c, votes, s.storage[b := i], b)
    ensures CoreInv(c, votes, s.(storage := s.storage[b := i]))
  {
    StoreOkUndelivered(c, votes, s.storage, s.bExec, b, i);
    InvNewStorage(c, votes, s, s.storage[b := i]);
  }

  lemma InvTouched(c: Config, votes: seq<Vote>, s: Core, b: Block, i: Info)
    requires CoreInv(c, votes, s) && b in s.storage
    requires SameLinks(s.storage[b], i) && SelfQcOk(c, votes, s.storage[b := i], b)
    ensures CoreInv(c, votes, s.(storage := s.storage[b := i]))
  {
    StoreOkTouched(c, votes, s.storage, s.bExec, b, i);
    InvNewStorage(c, votes, s, s.storage[b := i]);
  }

  lemma FetchInv(c: Config, votes: seq<Vote>, s: Core, b: Block)
    requires CoreInv(c, votes, s) && Wired(s)
    ensures CoreInv(c, votes, Fetch(s, b)) && Quiet(s, Fetch(s, b))
  {
    if b !in s.storage {
      WiredAfter(s.storage, b, FRESH);
      InvUndelivered(c, votes, s, b, FRESH);
    }
  }

  // ---------- delivery ----------

  /** Uncles are lower than the block that names them, as its first parent is. */
  predicate LowerParents(b: Block) {
    forall p | p in b.Parents() :: Height(p) < Height(b)
  }

  /** The fields delivery gives b. */
  function DeliveredInfo(st: Storage, b: Block): Info
    requires b in st && b.HasParent() && b.parents[0] in st
  {
    st[b].(parents := b.parents, height := st[b.parents[0]].height + 1,
           qcRef := Some(b.QcObj()), delivered := true)
  }

  lemma StoreOkDelivered(c: Config, votes: seq<Vote>, st: Storage, exec: Block, b: Block)
    requires c.n >= 1 && StoreOk(c, votes, st, exec) && b in st && !st[b].delivered
    requires Admissible(c, votes, b) && LowerParents(b) && b.QcObj() in st
    requires forall p | p in b.parents :: DeliveredIn(st, p)
    ensures b.parents[0] in st
    ensures StoreOk(c, votes, st[b := DeliveredInfo(st, b)], exec)
  {
    assert b.parents[0] in b.parents;
    var i := DeliveredInfo(st, b);
    var st' := st[b := i];
    WiredAfter(st, b, i);
    UndeliveredNotExecuted(c, votes, st, exec, b);
    assert BlkOk(c, votes, st, exec, b.parents[0]);
    assert BlkOk(c, votes, st, exec, b);
    forall x | x in st' ensures BlkOk(c, votes, st', exec, x) {
      assert BlkOk(c, votes, st, exec, x);
      if x != b {
        BlkOkGrows(c, votes, st, st', exec, x);
      }
    }
  }

  /** A new tail replaces its parents among the tails. */
  lemma TailsAfterDelivery(st: Storage, st': Storage, tails: set<Block>, b: Block)
    requires TailsOk(st, tails) && !DeliveredIn(st, b)
    requires forall x :: DeliveredIn(st', x) <==> DeliveredIn(st, x) || x == b
    requires forall x | DeliveredIn(st, x) :: b !in x.Parents()
    ensures TailsOk(st', tails - (set p | p in b.Parents()) + {b})
  {
    forall x ensures HasDeliveredChild(st', x) <==> HasDeliveredChild(st, x) || x in b.Parents() {
      if HasDeliveredChild(st', x) {
        var k :| DeliveredIn(st', k) && x in k.Parents();
        assert DeliveredIn(st, k) || k == b;
      }
      if HasDeliveredChild(st, x) {
        var k :| DeliveredIn(st, k) && x in k.Parents();
        assert DeliveredIn(st', k);
      }
      assert DeliveredIn(st', b);
    }
    assert !HasDeliveredChild(st, b) && b !in b.Parents();
  }

  /** A failed delivery only leaves partial fields on a block that stays undelivered. */
  lemma DeliverFails(s: Core, b: Block) returns (i: Info)
    requires Wired(s) && b in s.storage && Deliver(s, b).error.Some?
    ensures Deliver(s, b).core == s.(storage := s.storage[b := i])
    ensures !s.storage[b].delivered
    ensures i == s.storage[b].(parents := i.parents, height := i.height)
    ensures b.HasParent() ==> Deliver(s, b).error != Some(DanglingRead)
  {
    i := Deliver(s, b).core.storage[b];
  }

  /** A successful one resolves every pointer. */
  lemma DeliverSucceeds(s: Core, b: Block)
    requires Wired(s) && b in s.storage && s.pipedQueue == []
    requires !s.storage[b].delivered && Deliver(s, b).error.None?
    ensures b.HasParent() && b.QcObj() in s.storage
    ensures forall p | p in b.parents :: DeliveredIn(s.storage, p)
    ensures b.parents[0] in s.storage
    ensures Deliver(s, b).core == s.(storage := s.storage[b := DeliveredInfo(s.storage, b)],
                                     tails := s.tails - (set p | p in b.Parents()) + {b})
  {
    assert b.parents[0] in b.parents;
  }

  lemma DeliverInv(c: Config, votes: seq<Vote>, s: Core, b: Block)
    requires CoreInv(c, votes, s) && Wired(s) && b in s.storage
    requires Admissible(c, votes, b) && LowerParents(b)
    ensures CoreInv(c, votes, Deliver(s, b).core)
    ensures Deliver(s, b).error != Some(DanglingRead)
    ensures Deliver(s, b).error.None? ==> DeliveredIn(Deliver(s, b).core.storage, b)
  {
    var o := Deliver(s, b);
    if o.error.Some? {
      var i := DeliverFails(s, b);
      assert BlkOk(c, votes, s.storage, s.bExec, b);
      UndeliveredNotExecuted(c, votes, s.storage, s.bExec, b);
      InvUndelivered(c, votes, s, b, i);
    } else if !s.storage[b].delivered {
      DeliverSucceeds(s, b);
      DeliverSuccess(c, votes, s, b);
    }
  }

  lemma DeliverSuccess(c: Config, votes: seq<Vote>, s: Core, b: Block)
    requires CoreInv(c, votes, s) && Wired(s) && b in s.storage && !s.storage[b].delivered
    requires Admissible(c, votes, b) && LowerParents(b) && b.QcObj() in s.storage
    requires forall p | p in b.parents :: DeliveredIn(s.storage, p)
    ensures b.parents[0] in s.storage
    ensures CoreInv(c, votes, s.(storage := s.storage[b := DeliveredInfo(s.storage, b)],
                                 tails := s.tails - (set p | p in b.Parents()) + {b}))
  {
    StoreOkDelivered(c, votes, s.storage, s.bExec, b);
    var st := s.storage[b := DeliveredInfo(s.storage, b)];
    forall x | DeliveredIn(s.storage, x) ensures b !in x.Parents() {
      assert BlkOk(c, votes, s.storage, s.bExec, x);
    }
    TailsAfterDelivery(s.storage, st, s.tails, b);
  }

  // ---------- highest certificate, lock ----------

  lemma UpdateHqcInv(c: Config, votes: seq<Vote>, s: Core, b: Block, qc: Cert)
    requires CoreInv(c, votes, s) && Wired(s) && DeliveredIn(s.storage, b)
    requires qc.obj == b && CertOk(c, votes, qc)
    ensures CoreInv(c, votes, UpdateHqc(s, b, qc))
    ensures Height(UpdateHqc(s, b, qc).hqc) >= Height(b)
    ensures Quiet(s, UpdateHqc(s, b, qc)) && UpdateHqc(s, b, qc).storage == s.storage
    ensures UpdateHqc(s, b, qc).bLock == s.bLock
    ensures UpdateHqc(s, b, qc).hqc == s.hqc || (UpdateHqc(s, b, qc).hqc == b && Height(b) > Height(s.hqc))
  {
    StoredHeight(c, votes, s.storage, s.bExec, b);
    StoredHeight(c, votes, s.storage, s.bExec, s.hqc);
  }

  lemma RaiseLockInv(c: Config, votes: seq<Vote>, s: Core, b: Block)
    requires CoreInv(c, votes, s) && Wired(s) && DeliveredIn(s.storage, b) && Certified(c, votes, b)
    requires LockBelowHqc(c.build, b, s.hqc)
    ensures CoreInv(c, votes, RaiseLock(s, b))
    ensures Height(RaiseLock(s, b).bLock) >= Height(b)
    ensures Quiet(s, RaiseLock(s, b)) && RaiseLock(s, b).storage == s.storage && RaiseLock(s, b).hqc == s.hqc
  {
    hide StoreOk, Certified, Committed, CertOk, StorageWired, TailsOk, LogOk, SignedOk, LockTarget;
    StoredHeight(c, votes, s.storage, s.bExec, b);
    StoredHeight(c, votes, s.storage, s.bExec, s.bLock);
  }

  // ---------- commit ----------

  lemma {:induction false} FinalitiesAppend(id: ReplicaId, log: seq<Block>, q: seq<Block>)
    ensures LogFinalities(id, log + q) == LogFinalities(id, log) + LogFinalities(id, q)
    decreases q
  {
    if q == [] {
      assert log + q == log;
    } else {
      var all, init, last := log + q, q[..|q| - 1], q[|q| - 1];
      assert all[..|all| - 1] == log + init && all[|all| - 1] == last;
      FinalitiesAppend(id, log, init);
      AppendAssociative(LogFinalities(id, log), LogFinalities(id, init), BlockFinalities(id, Height(last), last));
    }
  }

  lemma AppendAssociative<T>(a: seq<T>, b: seq<T>, d: seq<T>)
    ensures (a + b) + d == a + (b + d)
  {
  }

  lemma {:induction false} FinalitiesOfPath(id: ReplicaId, st: Storage, q: seq<Block>)
    requires forall b | b in q :: b in st && st[b].height == Height(b)
    ensures Finalities(id, st, q) == LogFinalities(id, q)
  {
    if q != [] {
      assert q[|q| - 1] in q;
      FinalitiesOfPath(id, st, q[..|q| - 1]);
    }
  }

  /** Ancestors of the new last executed block: the old ones and those just passed. */
  lemma ExecutedAfterCommit(b: Block, exec: Block, x: Block)
    requires Extends(b, exec)
    ensures Extends(b, x) <==> (Extends(exec, x) || x in PathAbove(b, Height(exec)))
  {
    InPathAbove(b, Height(exec), x);
    if Extends(b, x) && Height(x) <= Height(exec) {
      ExtendsTotal(b, exec, x);
    }
    if Extends(exec, x) {
      ExtendsTransitive(b, exec, x);
    }
  }

  lemma StoreOkCommitted(c: Config, votes: seq<Vote>, st: Storage, exec: Block, b: Block)
    requires c.n >= 1 && StoreOk(c, votes, st, exec) && DeliveredIn(st, b) && Extends(b, exec)
    ensures StoreOk(c, votes, MarkDecided(st, PathAbove(b, Height(exec))), b)
  {
    var q := PathAbove(b, Height(exec));
    var st' := MarkDecided(st, q);
    ExtendsHeight(b, exec);
    forall x | x in st' ensures BlkOk(c, votes, st', b, x) {
      assert BlkOk(c, votes, st, exec, x);
      ExecutedAfterCommit(b, exec, x);
      if st[x].delivered {
        assert ParentsDelivered(st', x);
      }
    }
  }

  /** Committing a block that extends the last executed one neither throws nor breaks the invariant. */
  lemma CommitInv(c: Config, votes: seq<Vote>, s: Core, b: Block)
    requires CoreInv(c, votes, s) && Wired(s) && DeliveredIn(s.storage, b)
    requires Committed(c, votes, b) && Extends(b, s.bExec) && Height(b) <= Height(s.bLock)
    ensures Commit(s, b).error.None?
    ensures CoreInv(c, votes, Commit(s, b).core)
    ensures Quiet(s, Commit(s, b).core)
    ensures Commit(s, b).core.bLock == s.bLock && Commit(s, b).core.hqc == s.hqc
  {
    hide CoreInv, Wired, StoreOk, Extends, PathAbove, MarkDecided, Finalities, LogFinalities;
    var st, h := s.storage, Height(s.bExec);
    var q := PathAbove(b, h);
    CommitParts(c, votes, s, b);
    CommitWalk(c, votes, s, b);
    assert Commit(s, b).core == s.(storage := MarkDecided(st, q), log := s.log + q,
                                   decided := s.decided + LogFinalities(s.id, q), bExec := b);
    CommitLog(s, b);
    CommitRest(c, votes, s, b);
  }

  lemma CommitParts(c: Config, votes: seq<Vote>, s: Core, b: Block)
    requires CoreInv(c, votes, s)
    ensures c.n >= 1 && StoreOk(c, votes, s.storage, s.bExec) && LogOk(s.id, s.bExec, s.log, s.decided)
    ensures Grows(s.storage, MarkDecided(s.storage, PathAbove(b, Height(s.bExec))))
  {
  }

  lemma CommitWalk(c: Config, votes: seq<Vote>, s: Core, b: Block)
    requires c.n >= 1 && Wired(s) && StoreOk(c, votes, s.storage, s.bExec) && DeliveredIn(s.storage, b)
    requires Extends(b, s.bExec)
    ensures s.storage[s.bExec].height == Height(s.bExec)
    ensures WalkDown(s.storage, b, Height(s.bExec)) == Some(s.bExec)
    ensures Passed(s.storage, b, Height(s.bExec)) == PathAbove(b, Height(s.bExec))
    ensures Finalities(s.id, s.storage, PathAbove(b, Height(s.bExec))) == LogFinalities(s.id, PathAbove(b,
      Height(s.bExec)))
  {
    var st, h := s.storage, Height(s.bExec);
    WalkDecidesAncestry(c, votes, st, s.bExec, b, s.bExec);
    WalkFinds(c, votes, st, s.bExec, b, h);
    var q := PathAbove(b, h);
    forall x | x in q ensures x in st && st[x].height == Height(x) {
      InPathAbove(b, h, x);
      AncestorDelivered(c, votes, st, s.bExec, b, x);
      assert BlkOk(c, votes, st, s.bExec, x);
    }
    FinalitiesOfPath(s.id, st, q);
  }

  lemma CommitLog(s: Core, b: Block)
    requires LogOk(s.id, s.bExec, s.log, s.decided) && Extends(b, s.bExec)
    ensures s.log + PathAbove(b, Height(s.bExec)) == Path(b)
    ensures s.decided + LogFinalities(s.id, PathAbove(b, Height(s.bExec))) == LogFinalities(s.id, Path(b))
  {
    PathSplit(b, s.bExec);
    FinalitiesAppend(s.id, s.log, PathAbove(b, Height(s.bExec)));
  }

  lemma CommitRest(c: Config, votes: seq<Vote>, s: Core, b: Block)
    requires CoreInv(c, votes, s) && DeliveredIn(s.storage, b)
    requires Committed(c, votes, b) && Extends(b, s.bExec) && Height(b) <= Height(s.bLock)
    ensures CoreInv(c, votes, s.(storage := MarkDecided(s.storage, PathAbove(b, Height(s.bExec))), bExec := b,
                                 log := Path(b), decided := LogFinalities(s.id, Path(b))))
  {
    var st := MarkDecided(s.storage, PathAbove(b, Height(s.bExec)));
    StoreOkCommitted(c, votes, s.storage, s.bExec, b);
    TailsSame(s.storage, st, s.tails);
  }
}
