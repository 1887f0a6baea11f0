/** When a proposer cannot go on: without enough replicas that would back what it proposes, nothing new is executed. */
module Backing {
  import opened Blocks
  import opened Votes
  import opened ConsensusCore
  import opened Invariant
  import opened Preservation
  import opened Handlers
  import opened Agreement
  import opened PaceMaker
  import opened Effects
  import opened Worlds
  import opened Standstill

  /** The vote rule keeps u from the blocks v builds on its tail: v's certificate is not above u's lock, and the
    * tail does not extend the lock. */
  predicate Shut(x: Setup, v: ReplicaId, u: ReplicaId)
    requires x.base.Has(v) && u in x.base.sys.cores
  {
    && Height(x.base.At(v).hqc) <= Height(x.base.At(u).bLock)
    && !Extends(x.base.tails[v], x.base.At(u).bLock)
  }

  /** u votes for what v proposes.  If v waits for certificates, its first block must already be above u's last vote;
    * otherwise v may build as high as it takes. */
  predicate Backs(x: Setup, v: ReplicaId, u: ReplicaId)
    requires x.base.Has(v) && u in x.base.sys.cores
  {
    && (u == v || !x.base.At(u).voteDisabled)
    && !Shut(x, v, u)
    && (x.waits ==> Height(x.base.tails[v]) + 1 > x.base.At(u).vheight)
  }

  function Backers(x: Setup, v: ReplicaId): set<ReplicaId>
    requires x.base.Has(v)
  {
    set u | u in x.base.sys.cores && Backs(x, v, u)
  }

  /** v can propose: its tail is not below its last vote and, if it waits, its last proposal is finished; and a quorum
    * backs it. */
  predicate CanDrive(x: Setup, v: ReplicaId)
    requires x.base.Has(v) && x.c.n >= 1
  {
    && Height(x.base.tails[v]) + 1 > x.base.At(v).vheight
    && (x.waits ==> WaitOver(x.base, v))
    && |Backers(x, v)| >= x.c.NMajority()
  }

  // ---------- what v can build ----------

  /** b is v's tail at base, or a new block above it that carries v's certificate of base. */
  predicate Tower(x: Setup, v: ReplicaId, b: Block)
    requires x.base.Has(v)
    decreases b
  {
    || b == x.base.tails[v]
    || (New(x.base, b) && b.HasParent() && b.QcObj() == x.base.At(v).hqc && Tower(x, v, b.parents[0]))
  }

  lemma {:induction false} TowerExtends(x: Setup, v: ReplicaId, b: Block, a: Block)
    requires x.base.Has(v) && Tower(x, v, b)
    ensures !New(x.base, a) && Extends(b, a) ==> Extends(x.base.tails[v], a)
    ensures Extends(b, x.base.tails[v]) && Height(b) >= Height(x.base.tails[v])
    ensures b != x.base.tails[v] ==> Height(b) > Height(x.base.tails[v])
    decreases b
  {
    hide New;
    if b != x.base.tails[v] {
      TowerExtends(x, v, b.parents[0], a);
    }
  }

  /** What is known of v at base. */
  lemma LeaderBase(x: Setup, v: ReplicaId)
    requires x.Valid() && x.base.Has(v)
    ensures Old(x.base, x.base.tails[v]) && Old(x.base, x.base.At(v).hqc)
    ensures !New(x.base, x.base.tails[v])
    ensures Height(x.base.tails[v]) >= Height(x.base.At(v).hqc)
    ensures Extends(x.base.tails[v], x.base.At(v).hqc)
    ensures Height(x.base.At(v).hqc.QcObj()) <= Height(x.base.At(v).hqc)
    ensures !Shut(x, v, v)
  {
    hide WorldInv, CoreInv, VotesOk, Wired, StoreOk, Old, New, Certified, CertOk;
    WorldCore(x.c, x.base, v);
    var s, t, votes := x.base.At(v), x.base.tails[v], x.base.sys.votes;
    LocksAreLow(x.c, votes, s);
    DeliveredIsOld(x, v, t);
    DeliveredIsOld(x, v, s.hqc);
    OldIsKnown(x.base, t);
    ExtendsHeight(t, s.hqc);
    InvStore(x.c, votes, s);
    QcObjDelivered(x.c, votes, s.storage, s.bExec, s.hqc);
    if Height(s.hqc) == Height(s.bLock) {
      CertIsCertified(x.c, votes, s.hqcCert);
      CertifiedUnique(x.c, votes, s.hqc, s.bLock);
    }
  }

  lemma CertIsCertified(c: Config, votes: seq<Vote>, qc: Cert)
    requires c.n >= 1 && CertOk(c, votes, qc)
    ensures Certified(c, votes, qc.obj)
  {
  }

  // ---------- what stays as it is ----------

  ghost predicate NewSigned(x: Setup, v: ReplicaId, w: World, u: ReplicaId, b: Block)
    requires x.base.Has(v) && w.Has(v) && u in x.base.sys.cores
  {
    && Tower(x, v, b) && Backs(x, v, u) && b in w.At(v).signed
    && (x.waits ==> Height(b) == Height(x.base.tails[v]) + 1 && b == w.beats[v].last)
  }

  ghost predicate Held(x: Setup, v: ReplicaId, u: ReplicaId, s: Core)
    requires x.base.Has(v) && u in x.base.sys.cores
  {
    var s0 := x.base.At(u);
    && s.vheight >= s0.vheight && s.voteDisabled == s0.voteDisabled && Old(x.base, s.bExec)
    && (Shut(x, v, u) ==> s.bLock == s0.bLock)
  }

  /** A new proposal of v stays unfinished. */
  ghost predicate LeaderHeld(x: Setup, v: ReplicaId, s: Core, t: Block, beat: Beat)
    requires x.base.Has(v)
  {
    && s.hqc == x.base.At(v).hqc && Tower(x, v, t) && s.nmajority >= 2 && s.id == v
    && (forall b | b in beat.finished :: !New(x.base, b))
    && (x.waits && t != x.base.tails[v] ==> New(x.base, beat.last))
  }

  /** So while v has proposed something new, it waits. */
  lemma StillUnfinished(x: Setup, v: ReplicaId, w: World)
    requires ReachInv(x, w) && x.base.Has(v) && w.Has(v) && LeaderHeld(x, v, w.At(v), w.tails[v], w.beats[v])
    requires New(x.base, w.beats[v].last)
    ensures !WaitOver(w, v)
  {
    hide WorldInv, New;
    var s, b := w.At(v), w.beats[v].last;
    if Complete(s, b) {
      SubsetSize(s.storage[b].selfQc.value.signers, {v});
    }
  }

  /** Too few back v: new blocks are v's own and signed by its backers only. */
  ghost predicate Stalled(x: Setup, v: ReplicaId, w: World) {
    && ReachInv(x, w) && x.base.Has(v) && w.Has(v)
    && x.leaders == {v} && |Backers(x, v)| < x.c.NMajority()
    && LeaderHeld(x, v, w.At(v), w.tails[v], w.beats[v])
    && forall u | u in w.sys.cores ::
      && Held(x, v, u, w.At(u))
      && forall b | b in w.At(u).signed && New(x.base, b) :: NewSigned(x, v, w, u, b)
  }

  lemma StalledParts(x: Setup, v: ReplicaId, w: World, u: ReplicaId)
    requires Stalled(x, v, w) && u in w.sys.cores
    ensures ReachInv(x, w) && x.Valid() && x.base.Has(v) && w.Has(v) && u in x.base.sys.cores && v in x.base.sys.cores
    ensures LeaderHeld(x, v, w.At(v), w.tails[v], w.beats[v]) && Held(x, v, u, w.At(u))
    ensures forall b | b in w.At(u).signed && New(x.base, b) :: NewSigned(x, v, w, u, b)
  {
    hide WorldInv, New, Old, Held, LeaderHeld, NewSigned;
  }

  /** A replica that votes for one of v's new blocks backs v. */
  lemma VoterBacks(x: Setup, v: ReplicaId, u: ReplicaId, s: Core, b: Block)
    requires x.Valid() && x.base.Has(v) && u in x.base.sys.cores && Held(x, v, u, s)
    requires Tower(x, v, b) && New(x.base, b) && (u == v || !s.voteDisabled)
    requires VoteRule(s, b)
    requires x.waits ==> Height(b) == Height(x.base.tails[v]) + 1
    ensures Backs(x, v, u)
  {
    hide WorldInv, Old, New, Height, Extends;
    LeaderBase(x, v);
    HqcIsOld(x, u);
    OldIsKnown(x.base, x.base.At(u).bLock);
    TowerExtends(x, v, b, x.base.At(u).bLock);
    TowerTop(x, v, b);
  }

  lemma TowerTop(x: Setup, v: ReplicaId, b: Block)
    requires x.base.Has(v) && Tower(x, v, b) && New(x.base, b) && !New(x.base, x.base.tails[v])
    ensures b.QcObj() == x.base.At(v).hqc && b != x.base.tails[v] && b.HasParent()
  {
    hide New;
  }

  /** The certificate of v's blocks does not raise a lock that shuts them out. */
  lemma LockHeld(x: Setup, v: ReplicaId, u: ReplicaId, s: Core, s': Core, b: Block)
    requires x.Valid() && x.base.Has(v) && u in x.base.sys.cores && Held(x, v, u, s)
    requires b.QcObj() == x.base.At(v).hqc
    requires s'.bLock == Higher(s.bLock, LockTarget(x.c.build, b))
    requires s'.bExec == s.bExec || s'.bExec == LockTarget(x.c.build, b).QcObj()
    requires s'.vheight >= s.vheight && s'.voteDisabled == s.voteDisabled
    ensures Held(x, v, u, s')
  {
    hide WorldInv, Old, New, Height, Extends;
    LeaderBase(x, v);
    CommittedIsOld(x, b);
  }

  lemma KeptHeld(x: Setup, v: ReplicaId, u: ReplicaId, s: Core, s': Core)
    requires x.base.Has(v) && u in x.base.sys.cores && Held(x, v, u, s) && Kept(s, s')
    ensures Held(x, v, u, s')
  {
    hide Old, Shut;
  }

  // ---------- one step ----------

  /** What has to be shown of a step at replica u to keep a stall. */
  lemma StallKept(x: Setup, v: ReplicaId, w: World, u: ReplicaId, w': World)
    requires Stalled(x, v, w) && ReachInv(x, w') && u in w.sys.cores && w'.Has(u) && w'.Has(v)
    requires w'.sys.cores == w.sys.cores[u := w'.At(u)] && w'.tails == w.tails[u := w'.tails[u]]
    requires w'.beats == w.beats[u := w'.beats[u]]
    requires u in x.base.sys.cores && Held(x, v, u, w'.At(u))
    requires u == v ==> LeaderHeld(x, v, w'.At(v), w'.tails[v], w'.beats[v])
    requires x.waits && w'.beats[v].last != w.beats[v].last ==> !New(x.base, w.beats[v].last)
    requires w.At(u).signed <= w'.At(u).signed
    requires forall b | b in w'.At(u).signed && New(x.base, b) ::
      b in w.At(u).signed || NewSigned(x, v, w', u, b)
    ensures Stalled(x, v, w')
  {
    hide WorldInv, New, Old, Held, LeaderHeld, Backs, Tower, OwnCerts;
    forall r, b | r in w'.sys.cores && b in w'.At(r).signed && New(x.base, b)
      ensures r in x.base.sys.cores && NewSigned(x, v, w', r, b)
    {
      StalledParts(x, v, w, r);
      if r != u || b in w.At(u).signed {
        assert NewSigned(x, v, w, r, b);
        Prefixed(w.At(u).signed, w'.At(u).signed, b);
      }
    }
    forall r | r in w'.sys.cores ensures r in x.base.sys.cores && Held(x, v, r, w'.At(r)) {
      StalledParts(x, v, w, r);
    }
  }

  lemma Prefixed<T>(p: seq<T>, q: seq<T>, b: T)
    requires p <= q
    ensures b in p ==> b in q
  {
  }

  lemma StallProposal(x: Setup, v: ReplicaId, w: World, e: Event, w': World)
    requires Stalled(x, v, w) && Unaided(x, w, e) && WorldStep(x.c, w, e, w')
    requires e.EvProposal? && e.r in w.sys.cores && DeliveredIn(w.At(e.r).storage, e.b)
    ensures Stalled(x, v, w')
  {
    hide WorldInv, New, Old, WorldStep, ReachInv, Gains, Height, Extends, LockTarget, Tower, VoteRule, Unaided;
    var u, b := e.r, e.b;
    StalledParts(x, v, w, u);
    ReachStep(x, w, e, w');
    ShownEffect(x, w, e, w');
    var p := ShownBy(x, w, e);
    StalledParts(x, v, w, p);
    assert NewSigned(x, v, w, p, b);
    LeaderBase(x, v);
    TowerTop(x, v, b);
    var s, s' := w.At(u), w'.At(u);
    VoteRuleHeight(s, b);
    LockHeld(x, v, u, s, s', b);
    if VoteRule(s, b) && !s.voteDisabled {
      VoterBacks(x, v, u, s, b);
    }
    if u == v {
      SameHeightHqc(s, b);
      OldIsKnown(x.base, x.base.At(v).hqc);
      SameId(s, s', x.c.build, b);
    }
    HasLeader(x, w', v);
    StallKept(x, v, w, u, w');
  }

  lemma ShownBy(x: Setup, w: World, e: Event) returns (p: ReplicaId)
    requires Unaided(x, w, e) && e.EvProposal?
    ensures New(x.base, e.b) && p in w.sys.cores && e.b in w.At(p).signed
  {
    p :| p in w.sys.cores && e.b in w.At(p).signed;
  }

  lemma VoteRuleHeight(s: Core, b: Block)
    ensures VoteRule(s, b) ==> Height(b) > s.vheight
  {
  }

  lemma SameHeightHqc(s: Core, b: Block)
    ensures b.QcObj() == s.hqc ==> Higher(s.hqc, b.QcObj()) == s.hqc
  {
  }

  lemma SameId(s: Core, s': Core, build: Build, b: Block)
    requires Shown(build, s, s', b)
    ensures s'.id == s.id && s'.nmajority == s.nmajority
  {
  }

  lemma HasLeader(x: Setup, w: World, v: ReplicaId)
    requires ReachInv(x, w) && x.base.Has(v)
    ensures w.Has(v)
  {
  }

  lemma StallPropose(x: Setup, v: ReplicaId, w: World, e: Event, w': World)
    requires Stalled(x, v, w) && Unaided(x, w, e) && WorldStep(x.c, w, e, w')
    requires e.EvPropose?
    ensures Stalled(x, v, w')
  {
    hide WorldInv, New, Old, WorldStep, ReachInv, Height, Extends, LockTarget, CertsKept, Grows, Shut, WaitOver;
    assert e.r == v;
    StalledParts(x, v, w, v);
    ReachStep(x, w, e, w');
    ProposedEffect(x, w, e, w');
    LeaderBase(x, v);
    var s, s', t, t0 := w.At(v), w'.At(v), w.tails[v], x.base.tails[v];
    var b := NewBlock(s, e.cmds, [t], e.extra);
    LockHeld(x, v, v, s, s', b);
    assert Tower(x, v, b);
    TowerExtends(x, v, b, b);
    TowerTop(x, v, b);
    if x.waits && New(x.base, w.beats[v].last) {
      StillUnfinished(x, v, w);
      assert false;
    }
    assert x.waits ==> t == t0;
    if Height(t) + 1 > s.vheight {
      assert NewSigned(x, v, w', v, b);
    }
    HasLeader(x, w', v);
    StallKept(x, v, w, v, w');
  }

  lemma StallStep(x: Setup, v: ReplicaId, w: World, e: Event, w': World)
    requires Stalled(x, v, w) && Unaided(x, w, e) && WorldStep(x.c, w, e, w')
    ensures Stalled(x, v, w')
  {
    hide WorldInv, New, Old, WorldStep, ReachInv, Gains, Tower, Unaided, Held, LeaderHeld, NewSigned, Stalled;
    StalledReach(x, v, w);
    ReachWorld(x, w);
    HasActor(x, w, e, w');
    StalledParts(x, v, w, e.r);
    if e.EvPropose? {
      StallPropose(x, v, w, e, w');
    } else if e.EvCertificate? {
      StepAllowed(x.c, w, e, w');
      CertificateIsQuorum(x, w, e);
      SignersBack(x, v, w, e);
      assert false;
    } else if e.EvProposal? && DeliveredIn(w.At(e.r).storage, e.b) {
      StallProposal(x, v, w, e, w');
    } else {
      OtherEvents(x, w, e);
      ReachStep(x, w, e, w');
      QuietEffect(x, w, e, w');
      KeptHeld(x, v, e.r, w.At(e.r), w'.At(e.r));
      KeptLeader(x, v, w, e.r, w');
      StallKept(x, v, w, e.r, w');
    }
  }

  lemma KeptLeader(x: Setup, v: ReplicaId, w: World, u: ReplicaId, w': World)
    requires Stalled(x, v, w) && u in w.sys.cores && w'.Has(u) && w'.tails == w.tails && w'.beats == w.beats
    requires w'.sys.cores == w.sys.cores[u := w'.At(u)] && Kept(w.At(u), w'.At(u))
    ensures w'.Has(v) && w.At(u).signed == w'.At(u).signed
    ensures u == v ==> LeaderHeld(x, v, w'.At(v), w'.tails[v], w'.beats[v])
  {
    hide WorldInv, New, Tower, ReachInv;
  }

  lemma StalledReach(x: Setup, v: ReplicaId, w: World)
    requires Stalled(x, v, w)
    ensures ReachInv(x, w) && x.base.Has(v) && |Backers(x, v)| < x.c.NMajority()
  {
  }

  /** Only backers sign new blocks, and they are too few for a certificate. */
  lemma SignersBack(x: Setup, v: ReplicaId, w: World, e: Event)
    requires Stalled(x, v, w) && w.Has(e.r) && e.EvCertificate? && Unaided(x, w, e) && Allowed(x.c, w.sys, e)
    ensures |e.qc.signers| < x.c.NMajority()
  {
    hide WorldInv, New, Old, ReachInv, Tower, Backs, Allowed;
    StalledReach(x, v, w);
    forall p | p in e.qc.signers ensures p in Backers(x, v) {
      SignersSigned(x, w, e, p);
      StalledParts(x, v, w, p);
      NewCertified(x, w, e);
      assert NewSigned(x, v, w, p, e.b);
    }
    SubsetSize(e.qc.signers, Backers(x, v));
  }

  lemma NewCertified(x: Setup, w: World, e: Event)
    requires e.EvCertificate? && Unaided(x, w, e)
    ensures New(x.base, e.b)
  {
  }

  /** v's id and threshold, and its finished blocks at base. */
  lemma LeaderBeat(x: Setup, v: ReplicaId)
    requires x.Valid() && x.base.Has(v)
    ensures x.base.At(v).nmajority >= 2 && x.base.At(v).id == v
    ensures forall b | b in x.base.beats[v].finished :: !New(x.base, b)
  {
    hide WorldInv, CoreInv, VotesOk, Wired;
    WorldCore(x.c, x.base, v);
  }

  lemma BaseStalled(x: Setup, v: ReplicaId)
    requires x.Valid() && x.base.Has(v) && x.leaders == {v} && |Backers(x, v)| < x.c.NMajority()
    ensures Stalled(x, v, x.base)
  {
    hide WorldInv, Old, ReachInv, Backs;
    BaseReachInv(x);
    LeaderBeat(x, v);
    assert Tower(x, v, x.base.tails[v]);
    forall u | u in x.base.sys.cores ensures Held(x, v, u, x.base.At(u)) {
      HqcIsOld(x, u);
    }
  }

  lemma {:induction false} StaysStalled(x: Setup, v: ReplicaId, w: World, k: nat)
    requires x.Valid() && x.base.Has(v) && x.leaders == {v} && |Backers(x, v)| < x.c.NMajority()
    requires ReachedIn(x, w, k)
    ensures Stalled(x, v, w)
    decreases k
  {
    hide Stalled, Unaided, WorldStep, Backers, WorldInv, New, ReachInv;
    if k == 0 {
      BaseStalled(x, v);
    } else {
      var w0, e :| ReachedIn(x, w0, k - 1) && Unaided(x, w0, e) && WorldStep(x.c, w0, e, w);
      StaysStalled(x, v, w0, k - 1);
      StallStep(x, v, w0, e, w);
    }
  }

  /** A proposer that cannot drive executes nothing new, and makes no one else do so. */
  lemma CannotDrive(x: Setup, v: ReplicaId, w: World, r: ReplicaId, b: Block)
    requires x.Valid() && x.base.Has(v) && x.leaders == {v} && !CanDrive(x, v)
    requires Reached(x, w) && r in w.sys.cores && b in w.At(r).log
    ensures !New(x.base, b)
  {
    hide WorldInv, Old, New, ReachedIn, Backers, WorldStep;
    var k: nat :| ReachedIn(x, w, k);
    ReachedInv(x, w, k);
    BaseOf(x, w, r);
    if Blocked(x, v) {
      assert AllBlocked(x);
      StuckForEver(x, w, r);
    } else {
      StaysStalled(x, v, w, k);
      StalledParts(x, v, w, r);
      LogIsOld(x, w, r, b);
    }
  }
}
