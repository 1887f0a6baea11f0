/** With a fixed proposer that follows the rule there is no standstill.  If every block that rule-following replicas
  * deliver was made by one of them, v, on its own hqc_tail, then v's tail is never below anyone's vote and all locks
  * lie on v's chain, so everyone backs v. */
module SoleProposer {
  import opened Blocks
  import opened Votes
  import opened ConsensusCore
  import opened Invariant
  import opened Preservation
  import opened Handlers
  import opened Agreement
  import opened PaceMaker
  import opened Effects
  import opened Worlds
  import opened Standstill
  import opened Backing

  /** Only v proposes, and only what it has proposed is delivered. */
  predicate ByV(w: World, e: Event, v: ReplicaId) {
    && v in w.sys.cores
    && (e.EvPropose? ==> e.r == v)
    && (e.EvDeliver? ==> e.b in w.At(v).signed)
  }

  ghost predicate IsSoleRun(c: Config, ws: seq<World>, es: seq<Event>, v: ReplicaId)
    requires c.n >= 1
  {
    && IsWorldRun(c, ws, es) && |ws| == |es| + 1
    && forall i | 0 <= i < |es| :: ByV(ws[i], es[i], v)
  }

  /** What s has delivered lies on the chain that ends in t, and it has not voted above it. */
  ghost predicate Below(s: Core, t: Block) {
    && s.vheight <= Height(t)
    && forall b | DeliveredIn(s.storage, b) :: Extends(t, b)
  }

  /** Everything lies on the chain that ends in v's tail, for which v has voted last. */
  ghost predicate OneChain(w: World, v: ReplicaId) {
    && w.Has(v) && w.At(v).vheight == Height(w.tails[v])
    && (forall b | b in w.At(v).signed :: Extends(w.tails[v], b))
    && forall u | u in w.sys.cores :: Below(w.At(u), w.tails[v])
  }

  // ---------- the tail ----------

  /** The end of the chain is its tallest tail. */
  lemma TallestIsEnd(c: Config, votes: seq<Vote>, s: Core, t: Block, t': Block)
    requires CoreInv(c, votes, s) && Wired(s) && DeliveredIn(s.storage, t) && Tallest(s, t')
    requires forall b | DeliveredIn(s.storage, b) :: Extends(t, b)
    ensures t' == t
  {
    hide CoreInv, StorageWired, Tallest, Extends, Height, StoreOk;
    TallestExtends(c, votes, s, t');
    LocksAreLow(c, votes, s);
    EndIsTail(c, votes, s, t);
    ExtendsHeight(t, t');
  }

  lemma EndIsTail(c: Config, votes: seq<Vote>, s: Core, t: Block)
    requires CoreInv(c, votes, s) && DeliveredIn(s.storage, t)
    requires forall b | DeliveredIn(s.storage, b) :: Extends(t, b)
    ensures t in s.tails
  {
    TailsKnown(c, votes, s);
    if HasDeliveredChild(s.storage, t) {
      var k :| DeliveredIn(s.storage, k) && t in k.Parents();
      hide CoreInv, Extends, Height;
      InvBlk(c, votes, s, k);
      ExtendsHeight(t, k);
    }
  }

  lemma AfterHqcIsEnd(c: Config, votes: seq<Vote>, s: Core, m: Core, t: Block, t': Block)
    requires CoreInv(c, votes, m) && Wired(m) && AfterHqc(s, m, t, t') && DeliveredIn(m.storage, t)
    requires forall b | DeliveredIn(m.storage, b) :: Extends(t, b)
    ensures t' == t
  {
    hide CoreInv, StorageWired, Tallest;
    if m.hqc != s.hqc {
      TallestIsEnd(c, votes, m, t, t');
    }
  }

  // ---------- one event, at its replica ----------

  /** Nothing is delivered. */
  ghost predicate DeliversNothing(s: Core, s': Core) {
    forall b | DeliveredIn(s'.storage, b) :: DeliveredIn(s.storage, b)
  }

  lemma FetchDelivers(s: Core, b: Block)
    requires Wired(s)
    ensures DeliversNothing(s, Fetch(s, b))
  {
  }

  lemma VoteDelivers(s: Core, b: Block, voter: ReplicaId, full: bool)
    requires Wired(s)
    ensures DeliversNothing(s, ReceiveVote(s, b, voter, full).core)
  {
    hide StorageWired;
  }

  lemma PruneDelivers(s: Core, staleness: nat)
    requires Wired(s)
    ensures DeliversNothing(s, Pruning.Prune(s, staleness))
  {
    hide StorageWired, Pruning.Clears;
  }

  /** What an event at u does, v's proposals apart: u stays below the end of the chain, and v's own tail and signatures
    * stay as they are. */
  ghost predicate Follows(w: World, w': World, v: ReplicaId, u: ReplicaId)
    requires w.Has(v)
  {
    && w'.Has(u) && Below(w'.At(u), w.tails[v])
    && (u == v ==>
          && w'.tails[v] == w.tails[v]
          && w'.At(v).signed == w.At(v).signed && w'.At(v).vheight == w.At(v).vheight)
  }

  lemma QuietBelow(s: Core, s': Core, t: Block)
    requires Below(s, t) && s'.vheight == s.vheight && DeliversNothing(s, s')
    ensures Below(s', t)
  {
    hide Extends, Height;
  }

  lemma QuietFollows(c: Config, w: World, e: Event, w': World, v: ReplicaId)
    requires WorldInv(c, w) && c.n >= 1 && WorldStep(c, w, e, w') && OneChain(w, v)
    requires e.EvFetch? || e.EvVote? || e.EvCertificate? || e.EvPrune?
    ensures Follows(w, w', v, e.r)
  {
    hide WorldInv, CoreInv, VotesOk, Wired, Fetch, ReceiveVote, UpdateHqc, Pruning.Prune, Extends, Height, AfterHqc,
         CertOk, DeliversNothing;
    WorldStepInv(c, w, e, w');
    WorldCore(c, w, e.r);
    WorldCore(c, w', e.r);
    WorldCore(c, w, v);
    var s, s', votes, t := w.At(e.r), w'.At(e.r), w.sys.votes, w.tails[v];
    match e {
      case EvFetch(_, b) =>
        FetchInv(c, votes, s, b);
        FetchDelivers(s, b);
        QuietBelow(s, s', t);
      case EvVote(_, b, voter, full) =>
        ReceiveVoteInv(c, votes, s, b, voter, full);
        VoteDelivers(s, b, voter, full);
        QuietBelow(s, s', t);
        if e.r == v {
          AfterHqcIsEnd(c, votes, s, s', t, w'.tails[v]);
        }
      case EvCertificate(_, b, qc) =>
        UpdateHqcInv(c, votes, s, b, qc);
        SameDelivered(s, s');
        QuietBelow(s, s', t);
        if e.r == v {
          AfterHqcIsEnd(c, votes, s, s', t, w'.tails[v]);
        }
      case EvPrune(_, staleness) =>
        Pruning.PruneInv(c, votes, s, staleness);
        PruneDelivers(s, staleness);
        QuietBelow(s, s', t);
    }
  }

  lemma SameDelivered(s: Core, s': Core)
    requires s'.storage == s.storage
    ensures DeliversNothing(s, s')
  {
  }

  lemma DeliverFollows(c: Config, w: World, e: Event, w': World, v: ReplicaId)
    requires WorldInv(c, w) && c.n >= 1 && WorldStep(c, w, e, w') && OneChain(w, v) && ByV(w, e, v) && e.EvDeliver?
    ensures Follows(w, w', v, e.r)
  {
    hide WorldInv, CoreInv, VotesOk, Wired, Deliver, Extends, Height;
    WorldStepInv(c, w, e, w');
    WorldCore(c, w, e.r);
    DeliverEffect(w.At(e.r), e.b);
  }

  lemma ProposalFollows(c: Config, w: World, e: Event, w': World, v: ReplicaId)
    requires WorldInv(c, w) && c.n >= 1 && WorldStep(c, w, e, w') && OneChain(w, v) && e.EvProposal?
    ensures Follows(w, w', v, e.r)
  {
    hide WorldInv, CoreInv, VotesOk, Wired, ReceiveProposal, Extends, Height, AfterUpdate, AfterProposal, Updated;
    WorldStepInv(c, w, e, w');
    WorldCore(c, w, e.r);
    WorldCore(c, w', e.r);
    WorldCore(c, w, v);
    var s, s', b, t := w.At(e.r), w'.At(e.r), e.b, w.tails[v];
    if !DeliveredIn(s.storage, b) {
      UndeliveredProposal(c.build, s, b);
    } else if b == Genesis {
      GenesisShown(c, w.sys.votes, s, t);
      assert s' == s;
      if e.r == v {
        TailAfterShown(c, w.sys.votes, s, b, t, w'.tails[v]);
      }
    } else {
      ProposalEffect(c, w.sys.votes, s, b);
      ExtendsHeight(t, b);
      assert Below(s', t);
      if e.r == v {
        TailAfterShown(c, w.sys.votes, s, b, t, w'.tails[v]);
      }
    }
  }

  /** Showing genesis changes nothing. */
  lemma GenesisShown(c: Config, votes: seq<Vote>, s: Core, t: Block)
    requires CoreInv(c, votes, s) && Wired(s) && DeliveredIn(s.storage, Genesis)
    ensures ReceiveProposal(c.build, s, Genesis).core == s
  {
    hide CoreInv, StorageWired, StoreOk, WalkDown, LockAndCommit, UpdateHqc, Certified, CertOk;
    InvStore(c, votes, s);
    InvHeight(c, votes, s, Genesis);
    GenesisDecided(c, votes, s.storage, s.bExec);
    if s.storage[Genesis].qcRef.Some? {
      LinkOf(c, votes, s.storage, s.bExec, Genesis);
    }
    assert Update(c.build, s, Genesis) == Outcome(s, None);
    assert Opinion(s, Genesis) == Some(false);
  }

  lemma TailAfterShown(c: Config, votes: seq<Vote>, s: Core, b: Block, t: Block, t': Block)
    requires CoreInv(c, votes, s) && Wired(s) && VotesOk(c, votes) && DeliveredIn(s.storage, b)
    requires Below(s, t) && DeliveredIn(s.storage, t)
    requires var s' := ReceiveProposal(c.build, s, b).core;
      exists t1 :: AfterUpdate(s, b, t, t1) && t1 in s'.storage && t' == AfterProposal(s', b, t1)
    ensures t' == t
  {
    hide CoreInv, VotesOk, Wired, ReceiveProposal, Extends, Height, AfterHqc, UpdateHqc, StoreOk, Certified, CertOk;
    var s' := ReceiveProposal(c.build, s, b).core;
    var t1 :| AfterUpdate(s, b, t, t1) && t1 in s'.storage && t' == AfterProposal(s', b, t1);
    InvStore(c, votes, s);
    QcObjDelivered(c, votes, s.storage, s.bExec, b);
    var m := UpdateHqc(s, b.QcObj(), b.Qc());
    UpdateHqcInv(c, votes, s, b.QcObj(), b.Qc());
    if AfterHqc(s, m, t, t1) {
      AfterHqcIsEnd(c, votes, s, m, t, t1);
    }
    assert t1 == t;
    ShownHeights(c, votes, s, b, t);
  }

  /** The heights that receiving a proposal leaves. */
  lemma ShownHeights(c: Config, votes: seq<Vote>, s: Core, b: Block, t: Block)
    requires CoreInv(c, votes, s) && Wired(s) && VotesOk(c, votes) && DeliveredIn(s.storage, b)
    requires DeliveredIn(s.storage, t) && Extends(t, b)
    ensures var s' := ReceiveProposal(c.build, s, b).core;
      b in s'.storage && t in s'.storage && s'.storage[b].height <= s'.storage[t].height
  {
    hide CoreInv, VotesOk, Wired, Update, StoreOk;
    ExtendsHeight(t, b);
    UpdateInv(c, votes, s, b);
    var u := Update(c.build, s, b).core;
    assert DeliveredIn(u.storage, b) && DeliveredIn(u.storage, t);
    InvHeight(c, votes, u, b);
    InvHeight(c, votes, u, t);
    ProposalKeepsStore(c, votes, s, b);
  }

  // ---------- the run ----------

  /** v's proposal becomes the end of the chain. */
  lemma ProposeExtends(c: Config, w: World, e: Event, w': World, v: ReplicaId)
    requires WorldInv(c, w) && c.n >= 1 && WorldStep(c, w, e, w') && OneChain(w, v) && e.EvPropose? && e.r == v
    ensures OneChain(w', v)
  {
    hide WorldInv, CoreInv, VotesOk, Wired, Propose, Height, Executed, Grows, CertsKept;
    WorldStepInv(c, w, e, w');
    WorldCore(c, w, v);
    var s, s', t := w.At(v), w'.At(v), w.tails[v];
    LocksAreLow(c, w.sys.votes, s);
    ProposeEffect(c, w.sys.votes, s, e.cmds, t, e.extra, e.carriedFull);
    var b := NewBlock(s, e.cmds, [t], e.extra);
    NewBlockIs(s, e.cmds, t, e.extra);
    assert w'.tails[v] == b && b.Parents() == [t];
    forall a | Extends(t, a) ensures Extends(b, a) {
    }
    forall u | u in w'.sys.cores ensures Below(w'.At(u), b) {
      if u != v {
        assert w'.At(u) == w.At(u) && Below(w.At(u), t);
      } else {
        assert Below(s, t);
      }
    }
  }

  lemma FollowsChain(c: Config, w: World, e: Event, w': World, v: ReplicaId)
    requires WorldInv(c, w) && c.n >= 1 && WorldStep(c, w, e, w') && OneChain(w, v) && Follows(w, w', v, e.r)
    ensures OneChain(w', v)
  {
    hide WorldInv, Extends, Height, TailStep, Allowed, Below, BeatAfter;
    WorldStepInv(c, w, e, w');
  }

  lemma SoleStep(c: Config, w: World, e: Event, w': World, v: ReplicaId)
    requires WorldInv(c, w) && c.n >= 1 && WorldStep(c, w, e, w') && OneChain(w, v) && ByV(w, e, v)
    ensures OneChain(w', v)
  {
    hide WorldInv, WorldStep, OneChain, Follows;
    ChainHas(w, v);
    match e {
      case EvPropose(_, _, _, _, _) => ProposeExtends(c, w, e, w', v);
      case EvDeliver(_, _) =>
        DeliverFollows(c, w, e, w', v);
        FollowsChain(c, w, e, w', v);
      case EvProposal(_, _) =>
        ProposalFollows(c, w, e, w', v);
        FollowsChain(c, w, e, w', v);
      case _ =>
        QuietFollows(c, w, e, w', v);
        FollowsChain(c, w, e, w', v);
    }
  }

  lemma ChainHas(w: World, v: ReplicaId)
    requires OneChain(w, v)
    ensures w.Has(v)
  {
  }

  lemma {:induction false} SoleRunChain(c: Config, ws: seq<World>, es: seq<Event>, v: ReplicaId, i: nat)
    requires c.Valid() && c.Honest(v) && IsSoleRun(c, ws, es, v) && i < |ws|
    ensures WorldInv(c, ws[i]) && OneChain(ws[i], v)
  {
    hide WorldInv, WorldStep, OneChain, ByV;
    WorldRunInv(c, ws, es, i);
    if i == 0 {
      SoleStart(c, ws[0], v);
    } else {
      SoleRunChain(c, ws, es, v, i - 1);
      assert WorldStepAt(c, ws, es, i - 1);
      SoleStep(c, ws[i - 1], es[i - 1], ws[i], v);
    }
  }

  lemma SoleStart(c: Config, w: World, v: ReplicaId)
    requires c.Valid() && c.Honest(v) && IsWorldInit(c, w) && WorldInv(c, w)
    ensures OneChain(w, v)
  {
    hide WorldInv;
    HonestIsIn(c, w, v);
    forall u | u in w.sys.cores ensures Below(w.At(u), Genesis) {
      assert w.At(u) == ConsensusCore.Init(u, c.NMajority(), c.Replicas(), w.At(u).voteDisabled);
    }
  }

  /** With one proposer v that follows the rule, at every moment of every run, whatever the faulty replicas sign: v's
    * tail is as high as anyone's last vote and extends everyone's lock, so all with voting enabled back v, and v can go
    * on exactly if they are a quorum and, if it waits, its last proposal is finished. */
  lemma NoStandstill(c: Config, ws: seq<World>, es: seq<Event>, v: ReplicaId, i: nat, waits: bool)
    requires c.Valid() && c.n >= 2 && c.Honest(v) && IsSoleRun(c, ws, es, v) && i < |ws|
    ensures ws[i].Has(v) && Height(ws[i].tails[v]) >= ws[i].At(v).vheight
    ensures forall u | u in ws[i].sys.cores ::
      ws[i].At(u).vheight <= Height(ws[i].tails[v]) && Extends(ws[i].tails[v], ws[i].At(u).bLock)
    ensures var w, x := ws[i], Setup(c, ws[i], {v}, waits);
      var enabled := set u | u in w.sys.cores && (u == v || !w.At(u).voteDisabled);
      && x.Valid() && Backers(x, v) == enabled
      && (CanDrive(x, v) <==> |enabled| >= c.NMajority() && (waits ==> WaitOver(w, v)))
  {
    hide WorldInv, CoreInv, VotesOk, Wired, Height, Extends, IsSoleRun, WaitOver;
    SoleRunChain(c, ws, es, v, i);
    var w := ws[i];
    forall u | u in w.sys.cores ensures w.At(u).vheight <= Height(w.tails[v]) && Extends(w.tails[v], w.At(u).bLock) {
      WorldCore(c, w, u);
      LocksAreLow(c, w.sys.votes, w.At(u));
      assert Below(w.At(u), w.tails[v]);
    }
  }
}
