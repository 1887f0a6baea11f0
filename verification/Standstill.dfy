/** When the protocol comes to a standstill: a replica whose hqc_tail is not as high as its last vote throws at
  * every proposal, and if that holds of all who may propose, nothing new is ever signed or executed without
  * the help of the others. */
module Standstill {
  import opened Blocks
  import opened Votes
  import opened ConsensusCore
  import opened Invariant
  import opened Preservation
  import opened Handlers
  import opened Agreement
  import opened PaceMaker
  import opened Effects
  import opened Worlds

  /** At every moment of every run, a proposal on hqc_tail throws exactly if the tail is lower than the last vote. */
  lemma ProposalThrows(c: Config, ws: seq<World>, es: seq<Event>, i: nat, r: ReplicaId, cmds: seq<Command>,
                       extra: seq<nat>, full: bool)
    requires c.Valid() && c.Honest(r) && IsWorldRun(c, ws, es) && i < |ws|
    ensures ws[i].Has(r)
    ensures var e := EvPropose(r, cmds, [ws[i].tails[r]], extra, full);
      && Allowed(c, ws[i].sys, e)
      && Handle(c, ws[i].sys, e).error ==
         if Height(ws[i].tails[r]) + 1 <= ws[i].At(r).vheight then Some(NotAboveVheight) else None
  {
    hide WorldInv, CoreInv, VotesOk, Propose, StorageWired, IsWorldRun;
    WorldRunInv(c, ws, es, i);
    HonestIsIn(c, ws[i], r);
    WorldCore(c, ws[i], r);
    var s, t := ws[i].At(r), ws[i].tails[r];
    LocksAreLow(c, ws[i].sys.votes, s);
    ProposeEffect(c, ws[i].sys.votes, s, cmds, t, extra, full);
  }

  lemma HonestIsIn(c: Config, w: World, r: ReplicaId)
    requires WorldInv(c, w)
    ensures c.Honest(r) <==> r in w.sys.cores
  {
  }

  /** None of the leaders can propose: the tail is too low, or the last proposal is not finished. */
  predicate AllBlocked(x: Setup) {
    forall r | r in x.leaders && x.base.Has(r) :: Blocked(x, r)
  }

  predicate Blocked(x: Setup, r: ReplicaId)
    requires x.base.Has(r)
  {
    Height(x.base.tails[r]) < x.base.At(r).vheight || (x.waits && !WaitOver(x.base, r))
  }

  /** Nothing has been signed or certified since base, and nothing new executed. */
  ghost predicate Silent(x: Setup, w: World) {
    && ReachInv(x, w)
    && w.tails == x.base.tails && w.beats == x.base.beats && w.sys.votes == x.base.sys.votes
    && forall r | r in w.sys.cores :: Unmoved(x.base, x.base.At(r), w.At(r))
  }

  ghost predicate Unmoved(base: World, s: Core, s': Core) {
    && s'.signed == s.signed && s'.vheight == s.vheight && s'.hqc == s.hqc && Old(base, s'.bExec)
    && s'.nmajority == s.nmajority && SameCollected(base, s, s')
  }

  /** The certificates collected for blocks known at base are those of base. */
  predicate SameCollected(base: World, s: Core, s': Core) {
    forall b | b in s'.storage && !New(base, b) && b != Genesis && s'.storage[b].selfQc.Some? ::
      b in s.storage && s'.storage[b].selfQc == s.storage[b].selfQc
  }

  /** A certificate for a new block needs a rule-following replica that has signed the block. */
  lemma SignersSigned(x: Setup, w: World, e: Event, p: ReplicaId)
    requires ReachInv(x, w) && w.Has(e.r) && e.EvCertificate? && Unaided(x, w, e) && Allowed(x.c, w.sys, e)
    requires p in e.qc.signers
    ensures p in w.sys.cores && e.b in w.At(p).signed
  {
    hide WorldInv, New;
    GenesisIsOld(x, e.r);
    HonestIsIn(x.c, w, p);
    WorldCore(x.c, w, p);
  }

  lemma CertificateIsQuorum(x: Setup, w: World, e: Event)
    requires ReachInv(x, w) && w.Has(e.r) && e.EvCertificate? && Unaided(x, w, e) && Allowed(x.c, w.sys, e)
    ensures |e.qc.signers| >= x.c.NMajority() >= 2
  {
    hide WorldInv, New;
    GenesisIsOld(x, e.r);
  }

  /** The block committed by what a certificate of base carries was delivered at base. */
  lemma CommittedIsOld(x: Setup, b: Block)
    requires x.Valid() && Old(x.base, b.QcObj())
    ensures Old(x.base, LockTarget(x.c.build, b)) && Old(x.base, LockTarget(x.c.build, b).QcObj())
  {
    hide WorldInv, Old;
    OldBelow(x, b.QcObj(), b.QcObj().QcObj());
    OldBelow(x, b.QcObj().QcObj(), b.QcObj().QcObj().QcObj());
  }

  lemma DeliveredIsOld(x: Setup, r: ReplicaId, b: Block)
    requires r in x.base.sys.cores && DeliveredIn(x.base.At(r).storage, b)
    ensures Old(x.base, b)
  {
  }

  lemma SilentStep(x: Setup, w: World, e: Event, w': World)
    requires AllBlocked(x) && Silent(x, w) && Unaided(x, w, e) && WorldStep(x.c, w, e, w')
    ensures Silent(x, w')
  {
    hide WorldInv, CoreInv, New, Gains, WorldStep, Kept, Shown, Proposed, Old, ReachInv, Wired, VotesOk;
    ReachWorld(x, w);
    ReachStep(x, w, e, w');
    HasActor(x, w, e, w');
    BaseOf(x, w, e.r);
    var s, s' := w.At(e.r), w'.At(e.r);
    if e.EvPropose? {
      SilentPropose(x, w, e, w');
    } else if e.EvCertificate? {
      StepAllowed(x.c, w, e, w');
      CertificateIsQuorum(x, w, e);
      var p :| p in e.qc.signers;
      SignersSigned(x, w, e, p);
      NotNew(x, w, e, p);
      assert false;
    } else if e.EvProposal? {
      var p :| p in w.sys.cores && e.b in w.At(p).signed;
      NotNew(x, w, e, p);
      assert false;
    } else {
      OtherEvents(x, w, e);
      QuietEffect(x, w, e, w');
      KeptUnmoved(x.base, x.base.At(e.r), s, s', e.b);
    }
  }

  lemma KeptUnmoved(base: World, s0: Core, s: Core, s': Core, b: Block)
    requires Unmoved(base, s0, s) && Kept(s, s') && Gains(s.storage, s'.storage, b)
    ensures Unmoved(base, s0, s')
  {
    hide Old, New;
  }

  /** What has not been signed since base is not new to those who have signed it. */
  lemma NotNew(x: Setup, w: World, e: Event, p: ReplicaId)
    requires Silent(x, w) && p in w.sys.cores && (e.EvProposal? || e.EvCertificate?) && e.b in w.At(p).signed
    ensures !New(x.base, e.b)
  {
    hide WorldInv, Old;
    assert x.base.At(p).signed == w.At(p).signed;
  }

  lemma StepAllowed(c: Config, w: World, e: Event, w': World)
    requires c.n >= 1 && WorldStep(c, w, e, w')
    ensures Allowed(c, w.sys, e)
  {
  }

  lemma BaseOf(x: Setup, w: World, r: ReplicaId)
    requires ReachInv(x, w) && r in w.sys.cores
    ensures x.Valid() && x.base.Has(r) && r in x.base.sys.cores
  {
  }

  /** A thrown proposal may still execute what the highest certificate commits, but nothing new. */
  lemma SilentPropose(x: Setup, w: World, e: Event, w': World)
    requires AllBlocked(x) && Silent(x, w) && Unaided(x, w, e) && WorldStep(x.c, w, e, w') && e.EvPropose?
    ensures w'.Has(e.r) && w'.tails == w.tails && w'.beats == w.beats && w'.sys.votes == w.sys.votes
    ensures e.r in x.base.sys.cores && Unmoved(x.base, x.base.At(e.r), w'.At(e.r))
  {
    hide CoreInv, New, Old, ReachInv, Wired, VotesOk, WorldStep, WorldInv, Proposed, Unmoved, NewBlock, Height;
    ReachWorld(x, w);
    HasActor(x, w, e, w');
    BaseOf(x, w, e.r);
    ProposedEffect(x, w, e, w');
    UnmovedFields(x, w, e.r);
    StillWaits(x, w, e.r);
    assert Height(w.tails[e.r]) + 1 <= w.At(e.r).vheight;
    SameVotes(x, w, e, w');
    HqcIsOld(x, e.r);
    var b := NewBlock(w.At(e.r), e.cmds, [w.tails[e.r]], e.extra);
    CommittedIsOld(x, b);
    ThrownUnmoved(x, x.base.At(e.r), w.At(e.r), w'.At(e.r), b);
  }

  lemma UnmovedFields(x: Setup, w: World, r: ReplicaId)
    requires AllBlocked(x) && Silent(x, w) && r in x.leaders && r in w.sys.cores
    ensures x.base.Has(r) && w.Has(r) && Blocked(x, r)
    ensures Unmoved(x.base, x.base.At(r), w.At(r)) && w.At(r).hqc == x.base.At(r).hqc
    ensures w.tails[r] == x.base.tails[r] && w.beats[r] == x.base.beats[r] && w.At(r).vheight == x.base.At(r).vheight
  {
    hide Height, WorldInv, OwnCerts, Old;
    ReachWorld(x, w);
    assert WorldInv(x.c, x.base) ==> x.base.Has(r) by {
      if WorldInv(x.c, x.base) {
        WorldCore(x.c, x.base, r);
      }
    }
    WorldCore(x.c, w, r);
  }

  /** A proposal not finished at base is not finished later. */
  lemma StillWaits(x: Setup, w: World, r: ReplicaId)
    requires AllBlocked(x) && Silent(x, w) && r in x.leaders && r in w.sys.cores
    ensures x.base.Has(r) && w.Has(r) && (WaitOver(w, r) ==> WaitOver(x.base, r))
  {
    hide WorldInv, OwnCerts, Old, Height, CoreInv, VotesOk, Wired;
    UnmovedFields(x, w, r);
    ReachWorld(x, w);
    WorldCore(x.c, x.base, r);
    GenesisIsOld(x, r);
  }

  lemma HqcIsOld(x: Setup, r: ReplicaId)
    requires x.Valid() && r in x.base.sys.cores
    ensures Old(x.base, x.base.At(r).hqc) && Old(x.base, x.base.At(r).bExec) && Old(x.base, x.base.At(r).bLock)
  {
    hide WorldInv, CoreInv, VotesOk, Wired;
    WorldCore(x.c, x.base, r);
    LocksAreLow(x.c, x.base.sys.votes, x.base.At(r));
    DeliveredIsOld(x, r, x.base.At(r).hqc);
  }

  lemma SameVotes(x: Setup, w: World, e: Event, w': World)
    requires ReachInv(x, w) && x.c.n >= 1 && WorldStep(x.c, w, e, w') && w'.Has(e.r)
    requires w'.At(e.r).signed == w.At(e.r).signed
    ensures w'.sys.votes == w.sys.votes
  {
    hide WorldInv, WorldStep, OwnCerts;
    ReachWorld(x, w);
    HasActor(x, w, e, w');
    WorldStepInv(x.c, w, e, w');
  }

  lemma ThrownUnmoved(x: Setup, s0: Core, s: Core, s': Core, b: Block)
    requires Unmoved(x.base, s0, s) && Proposed(x.c.build, s, s', b) && s'.hqc == s.hqc
    requires s'.vheight == s.vheight && s'.signed == s.signed && Old(x.base, LockTarget(x.c.build, b).QcObj())
    requires New(x.base, b)
    ensures Unmoved(x.base, s0, s')
  {
    hide Old, New;
  }

  lemma ReachWorld(x: Setup, w: World)
    requires ReachInv(x, w)
    ensures x.c.Valid() && WorldInv(x.c, w) && WorldInv(x.c, x.base)
    ensures w.sys.cores.Keys == x.base.sys.cores.Keys
  {
  }

  lemma BaseSilent(x: Setup)
    requires x.Valid()
    ensures Silent(x, x.base)
  {
    hide WorldInv, CoreInv, New, Old, Wired, VotesOk;
    BaseReachInv(x);
    forall r | r in x.base.sys.cores ensures Unmoved(x.base, x.base.At(r), x.base.At(r)) {
      WorldCore(x.c, x.base, r);
      LocksAreLow(x.c, x.base.sys.votes, x.base.At(r));
      DeliveredIsOld(x, r, x.base.At(r).bExec);
    }
  }

  lemma {:induction false} StaysSilent(x: Setup, w: World, k: nat)
    requires x.Valid() && AllBlocked(x) && ReachedIn(x, w, k)
    ensures Silent(x, w)
    decreases k
  {
    hide Silent, Unaided, WorldStep, AllBlocked;
    if k == 0 {
      BaseSilent(x);
    } else {
      var w0, e :| ReachedIn(x, w0, k - 1) && Unaided(x, w0, e) && WorldStep(x.c, w0, e, w);
      StaysSilent(x, w0, k - 1);
      SilentStep(x, w0, e, w);
    }
  }

  /** What is executed up to an old block is old. */
  lemma LogIsOld(x: Setup, w: World, r: ReplicaId, b: Block)
    requires ReachInv(x, w) && r in w.sys.cores && Old(x.base, w.At(r).bExec) && b in w.At(r).log
    ensures !New(x.base, b)
  {
    hide CoreInv, New, Old, VotesOk, WorldInv, Wired;
    ReachWorld(x, w);
    WorldCore(x.c, w, r);
    InvExec(x.c, w.sys.votes, w.At(r));
    InPathAbove(w.At(r).bExec, 0, b);
    OldBelow(x, w.At(r).bExec, b);
    OldIsKnown(x.base, b);
  }

  /** If each of those who may propose has a tail lower than its last vote, or waits for a certificate that has not
    * come, then, without the help of the others, no replica ever signs anything or takes in a certificate again, and
    * nothing new is executed. */
  lemma StuckForEver(x: Setup, w: World, r: ReplicaId)
    requires x.Valid() && AllBlocked(x) && Reached(x, w) && r in x.base.sys.cores
    ensures r in w.sys.cores && w.tails == x.base.tails && w.sys.votes == x.base.sys.votes
    ensures w.At(r).signed == x.base.At(r).signed && w.At(r).hqc == x.base.At(r).hqc
    ensures forall b | b in w.At(r).log :: !New(x.base, b)
  {
    hide New, ReachedIn, AllBlocked, Old, WorldInv;
    var k: nat :| ReachedIn(x, w, k);
    StaysSilent(x, w, k);
    assert Unmoved(x.base, x.base.At(r), w.At(r));
    forall b | b in w.At(r).log ensures !New(x.base, b) {
      LogIsOld(x, w, r, b);
    }
  }
}
