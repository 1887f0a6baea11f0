/** A standstill is within reach of every system: one run, in either build, that ends in it. */
module StandstillRun {
  import opened Blocks
  import opened Votes
  import opened ConsensusCore
  import opened Invariant
  import opened Preservation
  import opened Agreement
  import opened PaceMaker
  import opened Effects
  import opened Worlds
  import opened Moves
  import opened Standstill

  // ---------- runs, by their last state ----------

  ghost predicate RunTo(c: Config, w: World)
    requires c.n >= 1
  {
    exists ws, es :: IsWorldRun(c, ws, es) && |ws| == |es| + 1 && ws[|es|] == w
  }

  lemma RunOn(c: Config, w: World, e: Event, w': World)
    requires c.n >= 1 && RunTo(c, w) && WorldStep(c, w, e, w')
    ensures RunTo(c, w')
  {
    hide WorldStep, IsWorldRun;
    var ws, es :| IsWorldRun(c, ws, es) && |ws| == |es| + 1 && ws[|es|] == w;
    ExtendRun(c, ws, es, e, w');
    assert (ws + [w'])[|es + [e]|] == w';
  }

  lemma Take(c: Config, w: World, r: ReplicaId, b: Block) returns (w': World)
    requires WorldInv(c, w) && r in w.sys.cores && c.n >= 1 && RunTo(c, w)
    requires b != Genesis && Admissible(c, w.sys.votes, b) && LowerParents(b)
    requires forall p | p in b.parents :: DeliveredIn(w.At(r).storage, p)
    ensures RunTo(c, w') && WorldInv(c, w') && Moved(w, w', r)
    ensures w'.tails == w.tails && w'.sys.votes == w.sys.votes
    ensures Kept(w.At(r), w'.At(r)) && DeliveredIn(w'.At(r).storage, b)
    ensures w'.At(r).storage.Keys == w.At(r).storage.Keys + {b}
  {
    hide WorldInv, WorldStep, RunTo;
    var w1;
    w1, w' := TakeMoves(c, w, r, b);
    RunOn(c, w, EvFetch(r, b), w1);
    RunOn(c, w1, EvDeliver(r, b), w');
  }

  lemma Show(c: Config, w: World, r: ReplicaId, b: Block) returns (w': World)
    requires WorldInv(c, w) && r in w.sys.cores && DeliveredIn(w.At(r).storage, b) && b != Genesis
    requires c.n >= 1 && RunTo(c, w)
    ensures RunTo(c, w') && WorldInv(c, w') && Moved(w, w', r)
    ensures Shown(c.build, w.At(r), w'.At(r), b)
    ensures w'.At(r).storage.Keys == w.At(r).storage.Keys && Grows(w.At(r).storage, w'.At(r).storage)
    ensures w.sys.votes <= w'.sys.votes
  {
    hide WorldInv, WorldStep, RunTo;
    w' := ShowMove(c, w, r, b);
    RunOn(c, w, EvProposal(r, b), w');
  }

  // ---------- the blocks ----------

  /** The block everyone votes for. */
  function First(): Block {
    Block([Genesis], [], Cert(Genesis, {}), [])
  }

  /** The chain of height k that only replica r is shown. */
  function Own(r: ReplicaId, k: nat): Block {
    if k == 0 then Genesis else Block([Own(r, k - 1)], [r], Cert(Genesis, {}), [])
  }

  /** The block that carries the certificate of the first. */
  function Second(c: Config): Block {
    Block([First()], [], Cert(First(), Followers(c)), [])
  }

  lemma {:induction false} OwnShape(c: Config, votes: seq<Vote>, r: ReplicaId, k: nat)
    requires c.n >= 1
    ensures Height(Own(r, k)) == k && Extends(Own(r, k), Genesis) && !Extends(Own(r, k), First())
    ensures k > 0 ==> Admissible(c, votes, Own(r, k)) && LowerParents(Own(r, k))
    ensures k > 0 ==> Own(r, k).parents == [Own(r, k - 1)] && Own(r, k).QcObj() == Genesis
  {
    if k > 0 {
      OwnShape(c, votes, r, k - 1);
    }
  }

  lemma FirstShape(c: Config, votes: seq<Vote>)
    requires c.n >= 1
    ensures Height(First()) == 1 && Extends(First(), Genesis) && First().QcObj() == Genesis
    ensures Admissible(c, votes, First()) && LowerParents(First()) && First().parents == [Genesis]
    ensures Height(Second(c)) == 2 && Extends(Second(c), First()) && Second(c).QcObj() == First()
    ensures LowerParents(Second(c)) && Second(c).parents == [First()]
  {
  }

  // ---------- the three stages of a replica ----------

  predicate Fresh(s: Core) {
    && s.storage.Keys == {Genesis} && DeliveredIn(s.storage, Genesis)
    && s.vheight == 0 && s.signed == [] && s.hqc == s.bLock == Genesis && !s.voteDisabled
    && s.hqcCert == Cert(Genesis, {})
  }

  predicate VotedFirst(s: Core) {
    && s.storage.Keys == {Genesis, First()} && DeliveredIn(s.storage, Genesis) && DeliveredIn(s.storage, First())
    && s.vheight == 1 && s.signed == [First()] && s.hqc == s.bLock == Genesis && !s.voteDisabled
  }

  predicate LedAstray(c: Config, r: ReplicaId, s: Core) {
    && s.storage.Keys == {Genesis, First(), Own(r, 1), Own(r, 2), Own(r, 3), Second(c)}
    && s.vheight == 3 && s.signed == [First(), Own(r, 3)] && s.hqc == First()
  }

  lemma VoteForFirst(c: Config, w: World, r: ReplicaId) returns (w': World)
    requires WorldInv(c, w) && r in w.sys.cores && c.n >= 1 && RunTo(c, w) && Fresh(w.At(r))
    ensures RunTo(c, w') && WorldInv(c, w') && Moved(w, w', r) && VotedFirst(w'.At(r))
  {
    hide WorldInv, RunTo, Admissible, LowerParents, Extends, Height;
    FirstShape(c, w.sys.votes);
    var w1 := Take(c, w, r, First());
    w' := Show(c, w1, r, First());
    GenesisShape();
    assert DeliveredIn(w1.At(r).storage, Genesis);
    assert VoteRule(w1.At(r), First());
    assert [] + [First()] == [First()];
  }

  lemma GenesisShape()
    ensures Height(Genesis) == 0 && Genesis.QcObj() == Genesis && Extends(Genesis, Genesis)
  {
  }

  /** Replica r is shown its own chain and votes for its end, and then the block with the certificate of the first,
    * which is too low for its vote. */
  lemma LeadAstray(c: Config, w: World, r: ReplicaId) returns (w': World)
    requires WorldInv(c, w) && r in w.sys.cores && c.n >= 1 && RunTo(c, w) && VotedFirst(w.At(r))
    requires CertOk(c, w.sys.votes, Cert(First(), Followers(c)))
    ensures RunTo(c, w') && WorldInv(c, w') && Moved(w, w', r) && LedAstray(c, r, w'.At(r))
    ensures Height(w'.tails[r]) <= 2 && w.sys.votes <= w'.sys.votes
  {
    hide WorldInv, RunTo, Admissible, LowerParents, CertOk, Own, First, Second;
    var w1 := ShowOwn(c, w, r);
    CertOkMonotone(c, w.sys.votes, w1.sys.votes, Cert(First(), Followers(c)));
    SecondIsAdmissible(c, w1.sys.votes);
    FirstShape(c, w1.sys.votes);
    var w2 := Take(c, w1, r, Second(c));
    w' := Show(c, w2, r, Second(c));
    assert !VoteRule(w2.At(r), Second(c));
    TailIsLow(c, w', r);
  }

  lemma SecondIsAdmissible(c: Config, votes: seq<Vote>)
    requires c.n >= 1 && CertOk(c, votes, Cert(First(), Followers(c)))
    ensures Admissible(c, votes, Second(c)) && Second(c) != Genesis
  {
    hide CertOk;
    assert Extends(Second(c).parents[0], Second(c).QcObj());
  }

  /** Of what a replica led astray has, only the first block and the second extend the first. */
  lemma TailIsLow(c: Config, w: World, r: ReplicaId)
    requires WorldInv(c, w) && r in w.sys.cores && LedAstray(c, r, w.At(r))
    ensures w.Has(r) && Height(w.tails[r]) <= 2
  {
    hide WorldInv, CoreInv, VotesOk, Wired, Own, Extends, Height, First, Second;
    WorldCore(c, w, r);
    var votes := w.sys.votes;
    FirstShape(c, votes);
    OwnShape(c, votes, r, 1);
    OwnShape(c, votes, r, 2);
    OwnShape(c, votes, r, 3);
    GenesisBelowFirst();
  }

  lemma GenesisBelowFirst()
    ensures !Extends(Genesis, First())
  {
  }

  lemma TakeTwo(c: Config, w: World, r: ReplicaId) returns (w': World)
    requires WorldInv(c, w) && r in w.sys.cores && c.n >= 1 && RunTo(c, w) && VotedFirst(w.At(r))
    ensures RunTo(c, w') && WorldInv(c, w') && Moved(w, w', r) && w'.sys.votes == w.sys.votes
    ensures Kept(w.At(r), w'.At(r)) && DeliveredIn(w'.At(r).storage, Own(r, 2))
    ensures w'.At(r).storage.Keys == {Genesis, First(), Own(r, 1), Own(r, 2)}
  {
    hide WorldInv, RunTo, Admissible, LowerParents, Own, First, Extends, Height;
    OwnShape(c, w.sys.votes, r, 1);
    OwnShape(c, w.sys.votes, r, 2);
    OwnStart(r);
    var w1 := Take(c, w, r, Own(r, 1));
    w' := Take(c, w1, r, Own(r, 2));
  }

  lemma TakeOwn(c: Config, w: World, r: ReplicaId) returns (w': World)
    requires WorldInv(c, w) && r in w.sys.cores && c.n >= 1 && RunTo(c, w) && VotedFirst(w.At(r))
    ensures RunTo(c, w') && WorldInv(c, w') && Moved(w, w', r) && w'.sys.votes == w.sys.votes
    ensures Kept(w.At(r), w'.At(r)) && DeliveredIn(w'.At(r).storage, Own(r, 3))
    ensures w'.At(r).storage.Keys == {Genesis, First(), Own(r, 1), Own(r, 2), Own(r, 3)}
  {
    hide WorldInv, RunTo, Admissible, LowerParents, Own, First, Extends, Height;
    OwnShape(c, w.sys.votes, r, 3);
    OwnStart(r);
    var w1 := TakeTwo(c, w, r);
    w' := Take(c, w1, r, Own(r, 3));
  }

  lemma ShowOwn(c: Config, w: World, r: ReplicaId) returns (w': World)
    requires WorldInv(c, w) && r in w.sys.cores && c.n >= 1 && RunTo(c, w) && VotedFirst(w.At(r))
    ensures RunTo(c, w') && WorldInv(c, w') && Moved(w, w', r) && w.sys.votes <= w'.sys.votes
    ensures var s := w'.At(r);
      && s.storage.Keys == {Genesis, First(), Own(r, 1), Own(r, 2), Own(r, 3)} && DeliveredIn(s.storage, First())
      && s.vheight == 3 && s.signed == [First(), Own(r, 3)] && s.hqc == Genesis
  {
    hide WorldInv, RunTo, Admissible, LowerParents, Own, First, Extends, Height;
    OwnShape(c, w.sys.votes, r, 3);
    OwnStart(r);
    GenesisShape();
    var w1 := TakeOwn(c, w, r);
    w' := Show(c, w1, r, Own(r, 3));
    assert VoteRule(w1.At(r), Own(r, 3));
    assert [First()] + [Own(r, 3)] == [First(), Own(r, 3)];
  }

  lemma OwnStart(r: ReplicaId)
    ensures Own(r, 0) == Genesis && forall k: nat | k > 0 ::
      Own(r, k) != Genesis && Own(r, k).parents == [Own(r, k - 1)]
  {
  }

  // ---------- the run ----------

  /** The state before anything has happened, with voting enabled everywhere. */
  function StartWorld(c: Config): World
    requires c.n >= 1
  {
    World(Sys(map r | r in Followers(c) :: ConsensusCore.Init(r, c.NMajority(), c.Replicas(), false), []),
          map r | r in Followers(c) :: Genesis,
          map r | r in Followers(c) :: Beat(Genesis, {Genesis}))
  }

  lemma FollowsIff(c: Config, r: ReplicaId)
    ensures r in Followers(c) <==> c.Honest(r)
  {
  }

  lemma StartIsInit(c: Config)
    requires c.Valid()
    ensures IsWorldInit(c, StartWorld(c))
  {
    hide ConsensusCore.Init, Followers;
    var w := StartWorld(c);
    assert w.tails.Keys == w.beats.Keys == w.sys.cores.Keys;
    forall r ensures r in w.sys.cores <==> c.Honest(r) {
      FollowsIff(c, r);
    }
    forall r | r in w.sys.cores
      ensures w.At(r) == ConsensusCore.Init(r, c.NMajority(), c.Replicas(), w.At(r).voteDisabled)
    {
      EnabledAtStart(c, r);
    }
  }

  lemma EnabledAtStart(c: Config, r: ReplicaId)
    requires c.Valid()
    ensures !ConsensusCore.Init(r, c.NMajority(), c.Replicas(), false).voteDisabled
  {
  }

  lemma StartEnabled(c: Config)
    requires c.Valid()
    ensures forall r | r in StartWorld(c).sys.cores ::
      !StartWorld(c).At(r).voteDisabled && Fresh(StartWorld(c).At(r))
  {
  }

  lemma Start(c: Config) returns (w: World)
    requires c.Valid()
    ensures RunTo(c, w) && WorldInv(c, w) && forall r | r in w.sys.cores :: Fresh(w.At(r))
    ensures forall r | w.Has(r) :: w.tails[r] == Genesis && w.beats[r] == Beat(Genesis, {Genesis})
  {
    hide IsInit, WorldInv, RunTo, Fresh;
    w := StartWorld(c);
    StartIsInit(c);
    StartEnabled(c);
    RunStarts(c, w);
  }

  lemma RunStarts(c: Config, w: World)
    requires c.Valid() && IsWorldInit(c, w)
    ensures RunTo(c, w) && WorldInv(c, w)
  {
    hide IsWorldInit, WorldInv;
    var es: seq<Event> := [];
    assert IsWorldRun(c, [w], es);
    WorldRunInv(c, [w], es, 0);
    assert [w][|es|] == w;
  }

  /** The replicas below k are at a later stage than the others. */
  ghost predicate FirstStage(w: World, k: nat) {
    forall r | r in w.sys.cores :: if r < k then VotedFirst(w.At(r)) else Fresh(w.At(r))
  }

  lemma {:induction false} AllVoteForFirst(c: Config, k: nat) returns (w: World)
    requires c.Valid()
    ensures RunTo(c, w) && WorldInv(c, w) && FirstStage(w, k)
  {
    hide WorldInv, RunTo, Fresh, VotedFirst;
    if k == 0 {
      w := Start(c);
    } else {
      w := AllVoteForFirst(c, k - 1);
      if k - 1 in w.sys.cores {
        w := VoteForFirst(c, w, k - 1);
      }
    }
  }

  /** All have voted for the first block, and those below k have been led astray since. */
  ghost predicate SecondStage(c: Config, w: World, k: nat)
    requires c.n >= 1
  {
    && CertOk(c, w.sys.votes, Cert(First(), Followers(c)))
    && forall r | r in w.sys.cores ::
         if r < k then LedAstray(c, r, w.At(r)) && r in w.tails && Height(w.tails[r]) <= 2 else VotedFirst(w.At(r))
  }

  lemma {:induction false} AllLedAstray(c: Config, k: nat) returns (w: World)
    requires c.Valid()
    ensures RunTo(c, w) && WorldInv(c, w) && SecondStage(c, w, k)
  {
    hide WorldInv, RunTo, VotedFirst, LedAstray, CertOk, Height;
    if k == 0 {
      w := AllVoteForFirst(c, c.n);
      FirstCertified(c, w);
    } else {
      var w0 := AllLedAstray(c, k - 1);
      w := w0;
      if k - 1 in w.sys.cores {
        w := LeadAstray(c, w0, k - 1);
        CertOkMonotone(c, w0.sys.votes, w.sys.votes, Cert(First(), Followers(c)));
      }
    }
  }

  lemma FollowerCores(c: Config, w: World, r: ReplicaId)
    requires WorldInv(c, w)
    ensures c.Valid() && (r in w.sys.cores <==> c.Honest(r)) && (r in w.sys.cores <==> r in Followers(c))
    ensures r in w.sys.cores ==> r < c.n && r in w.tails && forall b ::
      Vote(r, b) in w.sys.votes <==> b in w.At(r).signed
  {
    hide StoreOk, TailsOk, VoterOk, VotesOk, LogOk;
    if r in w.sys.cores {
      WorldCore(c, w, r);
    }
  }

  lemma FirstCertified(c: Config, w: World)
    requires c.Valid() && WorldInv(c, w) && FirstStage(w, c.n)
    ensures SecondStage(c, w, 0)
  {
    hide WorldInv;
    FollowersAreQuorum(c);
    forall r | r in Followers(c) ensures Vote(r, First()) in w.sys.votes {
      FollowerCores(c, w, r);
      assert VotedFirst(w.At(r));
    }
    forall r | r in w.sys.cores ensures VotedFirst(w.At(r)) {
      FollowerCores(c, w, r);
    }
  }

  lemma OwnDiffers(p: ReplicaId, q: ReplicaId)
    requires Own(p, 3) == Own(q, 3)
    ensures p == q
  {
  }

  /** The ends of the chains have one vote each, which is no quorum even with all faulty replicas: nothing above the
    * first block has a certificate or can get one from the votes cast. */
  lemma NothingHigherCertified(c: Config, w: World, b: Block)
    requires c.n >= 2 && WorldInv(c, w) && SecondStage(c, w, c.n) && Certified(c, w.sys.votes, b)
    ensures Height(b) <= 1
  {
    hide WorldInv, Own, First, CertOk;
    FirstShape(c, w.sys.votes);
    FollowerCores(c, w, 0);
    if b != Genesis && b != First() {
      var q :| IsQuorum(c, q) && SignedBy(c, w.sys.votes, b, q);
      var p := QuorumIntersection(c, q, q);
      SignedOwn(c, w, b, p);
      forall r | r in q && c.Honest(r) ensures r == p {
        SignedOwn(c, w, b, r);
        OwnDiffers(r, p);
      }
      assert q <= c.faulty + {p};
      SubsetSize(q, c.faulty + {p});
      assert false;
    }
  }

  lemma SignedOwn(c: Config, w: World, b: Block, r: ReplicaId)
    requires c.n >= 1 && WorldInv(c, w) && SecondStage(c, w, c.n) && c.Honest(r) && Vote(r, b) in w.sys.votes
    requires b != First()
    ensures b == Own(r, 3)
  {
    hide WorldInv, Own, First, CertOk;
    FollowerCores(c, w, r);
    assert LedAstray(c, r, w.At(r));
  }

  /** In every system of at least two replicas some run ends in a standstill: every rule-following replica has voted
    * at height three and proposes on a block of height at most two, and no block is certified above height one,
    * which all of them hold a certificate of.  The blocks are for a faulty replica to make up,
    * one suffices; here they may come from anywhere. */
  lemma StandstillHappens(c: Config) returns (ws: seq<World>, es: seq<Event>)
    requires c.Valid() && c.n >= 2
    ensures IsWorldRun(c, ws, es) && |ws| == |es| + 1
    ensures var w := ws[|es|];
      && (forall r | c.Honest(r) ::
            w.Has(r) && w.At(r).vheight == 3 && Height(w.tails[r]) <= 2 && Height(w.At(r).hqc) == 1)
      && (forall b | Certified(c, w.sys.votes, b) :: Height(b) <= 1)
  {
    hide IsWorldRun, LedAstray, CertOk, Certified;
    var w := AllLedAstray(c, c.n);
    ws, es :| IsWorldRun(c, ws, es) && |ws| == |es| + 1 && ws[|es|] == w;
    forall r | c.Honest(r)
      ensures w.Has(r) && w.At(r).vheight == 3 && Height(w.tails[r]) <= 2 && Height(w.At(r).hqc) == 1
    {
      FollowerCores(c, w, r);
      LedFields(c, r, w.At(r));
    }
    forall b | Certified(c, w.sys.votes, b) ensures Height(b) <= 1 {
      NothingHigherCertified(c, w, b);
    }
  }

  lemma LedFields(c: Config, r: ReplicaId, s: Core)
    requires LedAstray(c, r, s)
    ensures s.vheight == 3 && Height(s.hqc) == 1
  {
  }

  /** That run's end is final: whoever of the rule-following replicas may propose, and whether or not they wait for
    * certificates, without the others nothing is ever signed again and nothing new executed. */
  lemma StandstillIsFinal(c: Config) returns (ws: seq<World>, es: seq<Event>)
    requires c.Valid() && c.n >= 2
    ensures IsWorldRun(c, ws, es) && |ws| == |es| + 1
    ensures forall x: Setup, w: World, r |
      x.c == c && x.base == ws[|es|] && x.leaders <= Followers(c) && Reached(x, w) && c.Honest(r) ::
        && r in w.sys.cores && r in x.base.sys.cores
        && w.At(r).signed == x.base.At(r).signed
        && forall b | b in w.At(r).log :: !New(x.base, b)
  {
    hide IsWorldRun, New, Reached, WorldInv, Certified;
    ws, es := StandstillHappens(c);
    var end := ws[|es|];
    WorldRunInv(c, ws, es, |es|);
    forall x: Setup, w: World, r |
      x.c == c && x.base == end && x.leaders <= Followers(c) && Reached(x, w) && c.Honest(r)
      ensures r in w.sys.cores && r in x.base.sys.cores && w.At(r).signed == x.base.At(r).signed
      ensures forall b | b in w.At(r).log :: !New(x.base, b)
    {
      forall p ensures p in end.sys.cores <==> p in Followers(c) {
        FollowerCores(c, end, p);
      }
      assert x.Valid();
      StuckForEver(x, w, r);
    }
  }
}
