/** What holds of a rule-following replica in every reachable state, relative to the
  * log of honest votes, and the facts about walks and links that follow from it. */
module Invariant {
  import opened Blocks
  import opened Votes
  import opened ConsensusCore

  // ---------- the invariant ----------

  /** Delivery resolved the pointers of b and pruning has not touched them. */
  predicate Intact(st: Storage, b: Block)
    requires b in st
  {
    st[b].parents == b.Parents() && st[b].qcRef == Some(b.QcObj())
  }

  /** Pruning has cleared the pointers of b. */
  predicate Cleared(st: Storage, b: Block)
    requires b in st
  {
    st[b].parents == [] && st[b].qcRef == None
  }

  predicate ParentsDelivered(st: Storage, b: Block) {
    forall p | p in b.Parents() :: p in st && st[p].delivered && Height(p) < Height(b)
  }

  ghost predicate DeliveredOk(c: Config, votes: seq<Vote>, st: Storage, exec: Block, b: Block)
    requires c.n >= 1 && b in st
  {
    && st[b].height == Height(b)
    && Extends(b, Genesis)
    && (b != Genesis ==> Admissible(c, votes, b))
    && ParentsDelivered(st, b)
    && b.QcObj() in st
    && (Intact(st, b) || Cleared(st, b))
    && (Height(b) > Height(exec) ==> Intact(st, b))
  }

  ghost predicate SelfQcOk(c: Config, votes: seq<Vote>, st: Storage, b: Block)
    requires b in st
  {
    st[b].selfQc.Some? ==>
      && st[b].selfQc.value.obj == b
      && st[b].selfQc.value.signers <= c.Replicas()
      && SignedBy(c, votes, b, st[b].selfQc.value.signers)
  }

  ghost predicate BlkOk(c: Config, votes: seq<Vote>, st: Storage, exec: Block, b: Block)
    requires c.n >= 1 && b in st
  {
    && (b == Genesis ==> st[b].delivered)
    && (st[b].delivered ==> DeliveredOk(c, votes, st, exec, b))
    && (st[b].decision <==> Extends(exec, b))
    && SelfQcOk(c, votes, st, b)
  }

  /** Every stored block is as it should be; exec is the last executed block. */
  ghost predicate StoreOk(c: Config, votes: seq<Vote>, st: Storage, exec: Block)
    requires c.n >= 1
  {
    && StorageWired(st)
    && exec in st && st[exec].delivered
    && forall b {:trigger BlkOk(c, votes, st, exec, b)} | b in st :: BlkOk(c, votes, st, exec, b)
  }

  predicate DeliveredIn(st: Storage, b: Block) {
    b in st && st[b].delivered
  }

  ghost predicate PtrsOk(c: Config, votes: seq<Vote>, st: Storage, exec: Block, lock: Block, hqc: Block, qc: Cert)
    requires c.n >= 1
  {
    && DeliveredIn(st, exec) && Committed(c, votes, exec)
    && DeliveredIn(st, lock) && Certified(c, votes, lock)
    && DeliveredIn(st, hqc) && qc.obj == hqc && CertOk(c, votes, qc)
    && Height(exec) <= Height(lock)
    && LockBelowHqc(c.build, lock, hqc)
  }

  /** The three-step lock trails the highest certificate strictly; the two-step lock never overtakes it. */
  predicate LockBelowHqc(build: Build, lock: Block, hqc: Block) {
    if build.TwoStep? then Height(lock) <= Height(hqc)
    else lock == Genesis || Height(lock) < Height(hqc)
  }

  /** The replica's own signatures are its votes in the log. */
  ghost predicate SignedOk(votes: seq<Vote>, id: ReplicaId, signed: seq<Block>) {
    forall b :: Vote(id, b) in votes <==> b in signed
  }

  /** Its last voted height and its lock account for all of them. */
  predicate VoterOk(build: Build, signed: seq<Block>, vheight: nat, lock: Block) {
    forall b | b in signed :: Height(b) <= vheight && Height(LockTarget(build, b)) <= Height(lock)
  }

  /** The finalities of a committed chain: block by block, each with its commands in order. */
  function LogFinalities(id: ReplicaId, log: seq<Block>): seq<Finality> {
    if log == [] then []
    else
      var last := log[|log| - 1];
      LogFinalities(id, log[..|log| - 1]) + BlockFinalities(id, Height(last), last)
  }

  predicate LogOk(id: ReplicaId, exec: Block, log: seq<Block>, decided: seq<Finality>) {
    log == Path(exec) && decided == LogFinalities(id, log)
  }

  ghost predicate HasDeliveredChild(st: Storage, b: Block) {
    exists k :: DeliveredIn(st, k) && b in k.Parents()
  }

  /** tails is exactly the delivered blocks without a delivered child. */
  ghost predicate TailsOk(st: Storage, tails: set<Block>) {
    forall b :: b in tails <==> (DeliveredIn(st, b) && !HasDeliveredChild(st, b))
  }

  ghost predicate CoreInv(c: Config, votes: seq<Vote>, s: Core) {
    && c.Valid()
    && c.Honest(s.id)
    && s.nmajority == c.NMajority()
    && s.pipedQueue == []
    && StoreOk(c, votes, s.storage, s.bExec)
    && PtrsOk(c, votes, s.storage, s.bExec, s.bLock, s.hqc, s.hqcCert)
    && SignedOk(votes, s.id, s.signed)
    && VoterOk(c.build, s.signed, s.vheight, s.bLock)
    && LogOk(s.id, s.bExec, s.log, s.decided)
    && TailsOk(s.storage, s.tails)
  }

  lemma InvIsWired(c: Config, votes: seq<Vote>, s: Core)
    requires CoreInv(c, votes, s)
    ensures Wired(s)
  {
  }

  // ---------- ancestors and walks ----------

  lemma StoredHeight(c: Config, votes: seq<Vote>, st: Storage, exec: Block, b: Block)
    requires c.n >= 1 && StoreOk(c, votes, st, exec) && DeliveredIn(st, b)
    ensures st[b].height == Height(b)
  {
    assert BlkOk(c, votes, st, exec, b);
  }

  lemma InvStore(c: Config, votes: seq<Vote>, s: Core)
    requires CoreInv(c, votes, s)
    ensures c.Valid() && StoreOk(c, votes, s.storage, s.bExec)
  {
  }

  lemma InvBlk(c: Config, votes: seq<Vote>, s: Core, b: Block)
    requires CoreInv(c, votes, s) && b in s.storage
    ensures c.n >= 1 && BlkOk(c, votes, s.storage, s.bExec, b)
  {
  }

  lemma InvExec(c: Config, votes: seq<Vote>, s: Core)
    requires CoreInv(c, votes, s)
    ensures DeliveredIn(s.storage, s.bExec) && Extends(s.bExec, Genesis)
    ensures s.log == Path(s.bExec) && s.decided == LogFinalities(s.id, s.log)
  {
    InvBlk(c, votes, s, s.bExec);
  }

  lemma InvHeight(c: Config, votes: seq<Vote>, s: Core, b: Block)
    requires CoreInv(c, votes, s) && DeliveredIn(s.storage, b)
    ensures s.storage[b].height == Height(b)
  {
    StoredHeight(c, votes, s.storage, s.bExec, b);
  }

  /** The delivered set is closed under ancestors. */
  lemma {:induction false} AncestorDelivered(c: Config, votes: seq<Vote>, st: Storage, exec: Block, b: Block, a: Block)
    requires c.n >= 1 && StoreOk(c, votes, st, exec) && DeliveredIn(st, b) && Extends(b, a)
    ensures DeliveredIn(st, a)
    decreases b
  {
    assert BlkOk(c, votes, st, exec, b);
    if b != a {
      assert b.parents[0] in b.Parents();
      AncestorDelivered(c, votes, st, exec, b.parents[0], a);
    }
  }

  /** What a delivered block's certificate names is delivered, certified and lower. */
  lemma QcObjDelivered(c: Config, votes: seq<Vote>, st: Storage, exec: Block, b: Block)
    requires c.n >= 1 && StoreOk(c, votes, st, exec) && DeliveredIn(st, b)
    ensures DeliveredIn(st, b.QcObj()) && Certified(c, votes, b.QcObj()) && CertOk(c, votes, b.Qc())
    ensures Extends(b, b.QcObj())
    ensures b != Genesis ==> Height(b.QcObj()) < Height(b)
  {
    assert BlkOk(c, votes, st, exec, b);
    if b != Genesis {
      ExtendsHeight(b.parents[0], b.QcObj());
      AncestorDelivered(c, votes, st, exec, b, b.QcObj());
    }
  }

  /** At or above the last executed height, the height-guided walk finds the ancestor at the
    * height it is sent to, and passes exactly the path above it. */
  lemma {:induction false} WalkFinds(c: Config, votes: seq<Vote>, st: Storage, exec: Block, b: Block, h: nat)
    requires c.n >= 1 && StoreOk(c, votes, st, exec) && DeliveredIn(st, b) && Height(exec) <= h
    ensures WalkDown(st, b, h).Some?
    ensures Extends(b, WalkDown(st, b, h).value)
    ensures Height(WalkDown(st, b, h).value) == if Height(b) <= h then Height(b) else h
    ensures Passed(st, b, h) == PathAbove(b, h)
    decreases b
  {
    assert BlkOk(c, votes, st, exec, b);
    if Height(b) > h {
      assert Intact(st, b);
      assert b.parents[0] in b.Parents();
      assert st[b].parents[0] == b.parents[0];
      WalkFinds(c, votes, st, exec, b.parents[0], h);
    }
  }

  /** So the walk decides ancestry: it stops at a exactly when b extends a. */
  lemma WalkDecidesAncestry(c: Config, votes: seq<Vote>, st: Storage, exec: Block, b: Block, a: Block)
    requires c.n >= 1 && StoreOk(c, votes, st, exec) && DeliveredIn(st, b) && DeliveredIn(st, a)
    requires Height(exec) <= Height(a)
    ensures st[a].height == Height(a)
    ensures WalkDown(st, b, st[a].height).Some?
    ensures WalkDown(st, b, st[a].height).value == a <==> Extends(b, a)
  {
    assert BlkOk(c, votes, st, exec, a);
    WalkFinds(c, votes, st, exec, b, Height(a));
    var x := WalkDown(st, b, Height(a)).value;
    if Extends(b, a) {
      ExtendsHeight(b, a);
      ExtendsTotal(b, x, a);
      ExtendsHeight(x, a);
    }
  }

  /** The vote rule in force: above every earlier vote, and either the carried certificate is
    * above the lock or the block extends the lock. */
  predicate VoteRule(s: Core, b: Block) {
    && Height(b) > s.vheight
    && (Height(b.QcObj()) > Height(s.bLock) || Extends(b, s.bLock))
  }

  /** The stored pointer to the certified block is either there or the block is too low to matter. */
  lemma QcRefOf(c: Config, votes: seq<Vote>, st: Storage, exec: Block, b: Block)
    requires c.n >= 1 && StoreOk(c, votes, st, exec) && DeliveredIn(st, b)
    ensures st[b].height == Height(b)
    ensures DeliveredIn(st, b.QcObj()) && st[b.QcObj()].height == Height(b.QcObj())
    ensures st[b].qcRef == Some(b.QcObj()) || (st[b].qcRef == None && Height(b) <= Height(exec))
    ensures Height(b.QcObj()) <= Height(b)
  {
    QcObjDelivered(c, votes, st, exec, b);
    assert BlkOk(c, votes, st, exec, b);
    assert BlkOk(c, votes, st, exec, b.QcObj());
  }

  /** The code's rule, which reads stored heights and links, is that rule; it never reads a cleared parent. */
  lemma OpinionIsVoteRule(c: Config, votes: seq<Vote>, s: Core, b: Block)
    requires c.n >= 1 && Wired(s) && StoreOk(c, votes, s.storage, s.bExec)
    requires DeliveredIn(s.storage, b) && DeliveredIn(s.storage, s.bLock)
    requires Height(s.bExec) <= Height(s.bLock)
    ensures Opinion(s, b) == Some(VoteRule(s, b))
  {
    QcRefOf(c, votes, s.storage, s.bExec, b);
    WalkDecidesAncestry(c, votes, s.storage, s.bExec, b, s.bLock);
  }

  // ---------- growth of the vote log ----------

  lemma AdmissibleMonotone(c: Config, v: seq<Vote>, v': seq<Vote>, b: Block)
    requires c.n >= 1 && v <= v' && Admissible(c, v, b)
    ensures Admissible(c, v', b)
  {
    CertOkMonotone(c, v, v', b.Qc());
  }

  lemma StoreOkMonotone(c: Config, v: seq<Vote>, v': seq<Vote>, st: Storage, exec: Block)
    requires c.n >= 1 && v <= v' && StoreOk(c, v, st, exec)
    ensures StoreOk(c, v', st, exec)
  {
    forall b | b in st ensures BlkOk(c, v', st, exec, b) {
      assert BlkOk(c, v, st, exec, b);
      if st[b].delivered && b != Genesis {
        AdmissibleMonotone(c, v, v', b);
      }
      if st[b].selfQc.Some? {
        SignedByMonotone(c, v, v', b, st[b].selfQc.value.signers);
      }
    }
  }

  lemma PtrsOkMonotone(c: Config, v: seq<Vote>, v': seq<Vote>,
                       st: Storage, exec: Block, lock: Block, hqc: Block, qc: Cert)
    requires c.n >= 1 && v <= v' && PtrsOk(c, v, st, exec, lock, hqc, qc)
    ensures PtrsOk(c, v', st, exec, lock, hqc, qc)
  {
    CommittedMonotone(c, v, v', exec);
    CertifiedMonotone(c, v, v', lock);
    CertOkMonotone(c, v, v', qc);
  }

  /** A vote of another replica disturbs nothing. */
  lemma OthersVote(c: Config, votes: seq<Vote>, s: Core, v: Vote)
    requires CoreInv(c, votes, s) && v.voter != s.id
    ensures CoreInv(c, votes + [v], s)
  {
    StoreOkMonotone(c, votes, votes + [v], s.storage, s.bExec);
    PtrsOkMonotone(c, votes, votes + [v], s.storage, s.bExec, s.bLock, s.hqc, s.hqcCert);
  }
}
