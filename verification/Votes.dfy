/** Why the vote rule is safe: an argument about the log of honest votes alone.
  *
  * The log lists, in the order they were cast, the votes of the replicas that
  * follow the vote rule.  VotesOk says what the rule guarantees of each vote at
  * the moment it is cast; CertifiedExtends derives from it that no certified
  * block at or above a committed height leaves the committed chain.
  */
module Votes {
  import opened Blocks

  /** HOTSTUFF_TWO_STEP selects the length of the chain that commits. */
  datatype Build = TwoStep | ThreeStep

  datatype Config = Config(n: nat, faulty: set<ReplicaId>, build: Build) {
    /** One third of the other replicas. */
    function NFaulty(): nat
      requires n >= 1
    {
      (n - 1) / 3
    }

    function NMajority(): nat
      requires n >= 1
    {
      n - NFaulty()
    }

    function Replicas(): set<ReplicaId> {
      UpTo(n)
    }

    /** At most NFaulty replicas may sign outside the vote rule. */
    predicate Valid() {
      && n >= 1
      && faulty <= Replicas()
      && |faulty| <= NFaulty()
    }

    predicate Honest(r: ReplicaId) {
      r < n && r !in faulty
    }
  }

  /** The first n replica ids. */
  function UpTo(n: nat): (ids: set<ReplicaId>)
    ensures forall r: ReplicaId :: r in ids <==> r < n
    ensures |ids| == n
  {
    if n == 0 then {} else UpTo(n - 1) + {n - 1}
  }

  datatype Vote = Vote(voter: ReplicaId, blk: Block)

  // ---------- quorums ----------

  /** Any two quorums share a replica that follows the vote rule. */
  lemma QuorumIntersection(c: Config, p: set<ReplicaId>, q: set<ReplicaId>) returns (r: ReplicaId)
    requires c.Valid()
    requires p <= c.Replicas() && |p| >= c.NMajority()
    requires q <= c.Replicas() && |q| >= c.NMajority()
    ensures r in p && r in q && c.Honest(r)
  {
    SubsetSize(p + q, c.Replicas());
    assert |p + q| + |p * q| == |p| + |q|;
    if p * q <= c.faulty {
      SubsetSize(p * q, c.faulty);
      assert false;
    }
    r :| r in p * q && r !in c.faulty;
    assert r in c.Replicas();
  }

  lemma {:induction false} SubsetSize<T>(a: set<T>, b: set<T>)
    requires a <= b
    ensures |a| <= |b|
  {
    assert b == a + (b - a);
  }

  function Followers(c: Config): set<ReplicaId> {
    c.Replicas() - c.faulty
  }

  /** The rule-following replicas are a quorum. */
  lemma FollowersAreQuorum(c: Config)
    requires c.Valid()
    ensures IsQuorum(c, Followers(c))
  {
    assert c.Replicas() == Followers(c) + c.faulty;
  }

  /** Every member of q that follows the rule has voted for b: what a set of valid signatures proves. */
  ghost predicate SignedBy(c: Config, votes: seq<Vote>, b: Block, q: set<ReplicaId>) {
    forall r | r in q && c.Honest(r) :: Vote(r, b) in votes
  }

  ghost predicate IsQuorum(c: Config, q: set<ReplicaId>)
    requires c.n >= 1
  {
    q <= c.Replicas() && |q| >= c.NMajority()
  }

  /** b is genesis, or a quorum has signed it as far as the votes so far go. */
  ghost predicate Certified(c: Config, votes: seq<Vote>, b: Block)
    requires c.n >= 1
  {
    b == Genesis || exists q {:trigger SignedBy(c, votes, b, q)} :: IsQuorum(c, q) && SignedBy(c, votes, b, q)
  }

  /** A certificate whose signatures check out.  One over genesis is accepted unchecked. */
  ghost predicate CertOk(c: Config, votes: seq<Vote>, qc: Cert)
    requires c.n >= 1
  {
    qc.obj == Genesis || (IsQuorum(c, qc.signers) && SignedBy(c, votes, qc.obj, qc.signers))
  }

  lemma SignedByMonotone(c: Config, v: seq<Vote>, v': seq<Vote>, b: Block, q: set<ReplicaId>)
    requires v <= v' && SignedBy(c, v, b, q)
    ensures SignedBy(c, v', b, q)
  {
    forall r | r in q && c.Honest(r) ensures Vote(r, b) in v' {
      var k :| 0 <= k < |v| && v[k] == Vote(r, b);
      assert v'[k] == v[k];
    }
  }

  lemma CertOkMonotone(c: Config, v: seq<Vote>, v': seq<Vote>, qc: Cert)
    requires c.n >= 1 && v <= v' && CertOk(c, v, qc)
    ensures CertOk(c, v', qc)
  {
    if qc.obj != Genesis {
      SignedByMonotone(c, v, v', qc.obj, qc.signers);
    }
  }

  lemma CertifiedMonotone(c: Config, v: seq<Vote>, v': seq<Vote>, b: Block)
    requires c.n >= 1 && v <= v' && Certified(c, v, b)
    ensures Certified(c, v', b)
  {
    if b != Genesis {
      var q :| IsQuorum(c, q) && SignedBy(c, v, b, q);
      SignedByMonotone(c, v, v', b, q);
    }
  }

  // ---------- the vote rule, seen from the log ----------

  /** The block a vote for v makes the voter lock on, or on something at least as high. */
  function LockTarget(build: Build, v: Block): Block {
    if build.TwoStep? then v.QcObj() else v.QcObj().QcObj()
  }

  /** A block a rule-following replica delivers: it has a parent, its certificate
    * certifies, and what is certified is a proper ancestor. */
  ghost predicate Admissible(c: Config, votes: seq<Vote>, b: Block)
    requires c.n >= 1
  {
    && b.HasParent()
    && Extends(b.parents[0], b.QcObj())
    && CertOk(c, votes, b.Qc())
  }

  /** lock justifies a vote for w: it is certified, it is at least as high as every
    * earlier vote of this voter demanded, and w extends it or carries a higher certificate. */
  ghost predicate Justifies(c: Config, votes: seq<Vote>, r: ReplicaId, w: Block, lock: Block)
    requires c.n >= 1
  {
    && Certified(c, votes, lock)
    && (forall v | v in votes && v.voter == r :: Height(LockTarget(c.build, v.blk)) <= Height(lock))
    && (Height(w.QcObj()) > Height(lock) || Extends(w, lock))
  }

  ghost predicate VoteOk(c: Config, votes: seq<Vote>, r: ReplicaId, w: Block)
    requires c.n >= 1
  {
    && c.Honest(r)
    && Admissible(c, votes, w)
    && Extends(w, Genesis)
    && (forall v | v in votes && v.voter == r :: Height(v.blk) < Height(w))
    && exists lock :: Justifies(c, votes, r, w, lock)
  }

  ghost predicate VotesOk(c: Config, votes: seq<Vote>)
    requires c.n >= 1
  {
    forall k | 0 <= k < |votes| :: VoteOk(c, votes[..k], votes[k].voter, votes[k].blk)
  }

  lemma VotesOkExtend(c: Config, votes: seq<Vote>, r: ReplicaId, w: Block)
    requires c.n >= 1 && VotesOk(c, votes) && VoteOk(c, votes, r, w)
    ensures VotesOk(c, votes + [Vote(r, w)])
  {
    var more := votes + [Vote(r, w)];
    forall k | 0 <= k < |more| ensures VoteOk(c, more[..k], more[k].voter, more[k].blk) {
      if k < |votes| {
        assert more[..k] == votes[..k];
      } else {
        assert more[..k] == votes;
      }
    }
  }

  // ---------- commit ----------

  /** b heads a chain of direct parents whose certificates name them: the condition under which update commits b. */
  ghost predicate ChainHead(build: Build, top: Block, b: Block) {
    if build.TwoStep? then
      top.HasParent() && top.parents[0] == top.QcObj() == b
    else
      && top.HasParent()
      && top.parents[0] == top.QcObj()
      && top.QcObj().HasParent()
      && top.QcObj().parents[0] == top.QcObj().QcObj() == b
  }

  ghost predicate CommittedBy(c: Config, votes: seq<Vote>, b: Block, top: Block)
    requires c.n >= 1
  {
    top != Genesis && Certified(c, votes, top) && ChainHead(c.build, top, b)
  }

  ghost predicate Committed(c: Config, votes: seq<Vote>, b: Block)
    requires c.n >= 1
  {
    b == Genesis || exists top :: CommittedBy(c, votes, b, top)
  }

  lemma CommittedMonotone(c: Config, v: seq<Vote>, v': seq<Vote>, b: Block)
    requires c.n >= 1 && v <= v' && Committed(c, v, b)
    ensures Committed(c, v', b)
  {
    if b != Genesis {
      var top :| CommittedBy(c, v, b, top);
      CertifiedMonotone(c, v, v', top);
      assert CommittedBy(c, v', b, top);
    }
  }

  // ---------- consequences ----------

  /** An honest voter of a certified block, and the place of its vote in the log. */
  lemma HonestVoter(c: Config, votes: seq<Vote>, b: Block) returns (k: nat)
    requires c.Valid() && Certified(c, votes, b) && b != Genesis
    ensures k < |votes| && votes[k].blk == b && c.Honest(votes[k].voter)
  {
    var q :| IsQuorum(c, q) && SignedBy(c, votes, b, q);
    var r := QuorumIntersection(c, q, q);
    k :| 0 <= k < |votes| && votes[k] == Vote(r, b);
  }

  /** A common honest voter of two certified blocks. */
  lemma CommonVoter(c: Config, va: seq<Vote>, a: Block, vb: seq<Vote>, b: Block)
    returns (i: nat, j: nat)
    requires c.Valid() && Certified(c, va, a) && Certified(c, vb, b)
    requires a != Genesis && b != Genesis
    ensures i < |va| && j < |vb|
    ensures va[i].voter == vb[j].voter && va[i].blk == a && vb[j].blk == b
  {
    var p :| IsQuorum(c, p) && SignedBy(c, va, a, p);
    var q :| IsQuorum(c, q) && SignedBy(c, vb, b, q);
    var r := QuorumIntersection(c, p, q);
    i :| 0 <= i < |va| && va[i] == Vote(r, a);
    j :| 0 <= j < |vb| && vb[j] == Vote(r, b);
  }

  lemma CertifiedIsAdmissible(c: Config, votes: seq<Vote>, b: Block)
    requires c.Valid() && VotesOk(c, votes) && Certified(c, votes, b) && b != Genesis
    ensures Admissible(c, votes, b)
  {
    var k := HonestVoter(c, votes, b);
    assert VoteOk(c, votes[..k], votes[k].voter, votes[k].blk);
    CertOkMonotone(c, votes[..k], votes, b.Qc());
  }

  lemma CertifiedRooted(c: Config, votes: seq<Vote>, b: Block)
    requires c.Valid() && VotesOk(c, votes) && Certified(c, votes, b)
    ensures Extends(b, Genesis)
  {
    if b != Genesis {
      var k := HonestVoter(c, votes, b);
      assert VoteOk(c, votes[..k], votes[k].voter, votes[k].blk);
    }
  }

  /** In the log, one voter's votes climb. */
  lemma VotesClimb(c: Config, votes: seq<Vote>, i: nat, j: nat)
    requires c.n >= 1 && VotesOk(c, votes)
    requires i < j < |votes| && votes[i].voter == votes[j].voter
    ensures Height(votes[i].blk) < Height(votes[j].blk)
  {
    assert VoteOk(c, votes[..j], votes[j].voter, votes[j].blk);
    assert votes[..j][i] == votes[i];
  }

  /** At most one block is certified at each height. */
  lemma CertifiedUnique(c: Config, votes: seq<Vote>, a: Block, b: Block)
    requires c.Valid() && VotesOk(c, votes)
    requires Certified(c, votes, a) && Certified(c, votes, b) && Height(a) == Height(b)
    ensures a == b
  {
    hide VotesOk, Certified, CertOk, Extends;
    if a == Genesis || b == Genesis {
      if a != Genesis { CertifiedIsAdmissible(c, votes, a); }
      if b != Genesis { CertifiedIsAdmissible(c, votes, b); }
    } else {
      var i, j := CommonVoter(c, votes, a, votes, b);
      if i < j { VotesClimb(c, votes, i, j); }
      if j < i { VotesClimb(c, votes, j, i); }
    }
  }

  /** Every block of a committing chain is certified. */
  lemma ChainCertified(c: Config, votes: seq<Vote>, b: Block, top: Block)
    requires c.Valid() && VotesOk(c, votes) && CommittedBy(c, votes, b, top)
    ensures Certified(c, votes, top.QcObj()) && Certified(c, votes, b)
    ensures c.build.ThreeStep? ==> Height(top) == Height(b) + 2 && Height(top.QcObj()) == Height(b) + 1
    ensures c.build.TwoStep? ==> Height(top) == Height(b) + 1
    ensures Extends(top, b) && Extends(top, top.QcObj()) && Extends(top.QcObj(), b)
    ensures LockTarget(c.build, top) == b
  {
    CertifiedIsAdmissible(c, votes, top);
    if c.build.ThreeStep? {
      CertifiedIsAdmissible(c, votes, top.QcObj());
    }
  }

  lemma CommittedIsCertified(c: Config, votes: seq<Vote>, b: Block)
    requires c.Valid() && VotesOk(c, votes) && Committed(c, votes, b)
    ensures Certified(c, votes, b)
  {
    if b != Genesis {
      var top :| CommittedBy(c, votes, b, top);
      ChainCertified(c, votes, b, top);
    }
  }

  /** Certified blocks no higher than the top of a committing chain. */
  lemma LowCertifiedExtends(c: Config, votes: seq<Vote>, b: Block, top: Block, w: Block)
    requires c.Valid() && VotesOk(c, votes) && CommittedBy(c, votes, b, top)
    requires Certified(c, votes, w) && Height(b) <= Height(w) <= Height(top)
    ensures Extends(w, b)
  {
    ChainCertified(c, votes, b, top);
    if Height(w) == Height(top) {
      CertifiedUnique(c, votes, w, top);
    } else if Height(w) == Height(b) {
      CertifiedUnique(c, votes, w, b);
    } else {
      CertifiedUnique(c, votes, w, top.QcObj());
    }
  }

  /** The heart of safety, by induction on the length of the log prefix that certifies w:
    * a certified block at or above a committed block extends it. */
  lemma {:induction false} CertifiedExtends(c: Config, votes: seq<Vote>, b: Block, top: Block, k: nat, w: Block)
    requires c.Valid() && VotesOk(c, votes) && CommittedBy(c, votes, b, top)
    requires k <= |votes| && Certified(c, votes[..k], w) && Height(b) <= Height(w)
    ensures Extends(w, b)
    decreases k, 0
  {
    hide VotesOk, Certified, ChainHead, Extends, LockTarget;
    CertifiedMonotone(c, votes[..k], votes, w);
    if Height(w) <= Height(top) {
      LowCertifiedExtends(c, votes, b, top, w);
    } else {
      ChainCertified(c, votes, b, top);
      var i, j := CommonVoter(c, votes[..k], w, votes, top);
      if i < j { VotesClimb(c, votes, i, j); }
      assert votes[i] == votes[..k][i] && j < i;
      VoteExtends(c, votes, b, top, i, j);
    }
  }

  /** A voter of the chain's top who later votes higher votes for an extension of b. */
  lemma {:induction false} VoteExtends(c: Config, votes: seq<Vote>, b: Block, top: Block, i: nat, j: nat)
    requires c.Valid() && VotesOk(c, votes) && CommittedBy(c, votes, b, top)
    requires j < i < |votes| && votes[i].voter == votes[j].voter && votes[j].blk == top
    ensures Extends(votes[i].blk, b)
    decreases i, 1
  {
    var w := votes[i].blk;
    ChainCertified(c, votes, b, top);
    assert VoteOk(c, votes[..i], votes[i].voter, w);
    var lock :| Justifies(c, votes[..i], votes[i].voter, w, lock);
    assert votes[..i][j] == votes[j];
    assert Height(b) <= Height(lock);
    if Height(w.QcObj()) > Height(lock) {
      CertifiedExtends(c, votes, b, top, i, w.QcObj());
      ExtendsTransitive(w.parents[0], w.QcObj(), b);
    } else {
      CertifiedExtends(c, votes, b, top, i, lock);
      ExtendsTransitive(w, lock, b);
    }
  }

  /** Safety: every certified block at or above the height of a committed block extends it. */
  lemma Safety(c: Config, votes: seq<Vote>, b: Block, w: Block)
    requires c.Valid() && VotesOk(c, votes)
    requires Committed(c, votes, b) && Certified(c, votes, w) && Height(b) <= Height(w)
    ensures Extends(w, b)
  {
    if b == Genesis {
      CertifiedRooted(c, votes, w);
    } else {
      var top :| CommittedBy(c, votes, b, top);
      assert votes[..|votes|] == votes;
      CertifiedExtends(c, votes, b, top, |votes|, w);
    }
  }

  /** Committed blocks lie on one chain. */
  lemma CommittedTotal(c: Config, votes: seq<Vote>, a: Block, b: Block)
    requires c.Valid() && VotesOk(c, votes)
    requires Committed(c, votes, a) && Committed(c, votes, b)
    ensures Extends(a, b) || Extends(b, a)
  {
    CommittedIsCertified(c, votes, a);
    CommittedIsCertified(c, votes, b);
    if Height(a) <= Height(b) {
      Safety(c, votes, a, b);
    } else {
      Safety(c, votes, b, a);
    }
  }
}
