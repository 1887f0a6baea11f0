/** A proposer that waits for certificates can wait for ever: one run, in either build, in which all would back it,
  * but the block it has proposed last can get no certificate. */
module WaitingRun {
  import opened Blocks
  import opened Votes
  import opened ConsensusCore
  import opened Invariant
  import opened Preservation
  import opened Handlers
  import opened Agreement
  import opened PaceMaker
  import opened Effects
  import opened Worlds
  import opened Moves
  import opened Standstill
  import opened StandstillRun
  import opened Backing

  /** The others below k have voted for the first block; v has done nothing yet. */
  ghost predicate OthersStage(w: World, v: ReplicaId, k: nat) {
    && w.Has(v) && w.tails[v] == Genesis && w.beats[v] == Beat(Genesis, {Genesis})
    && forall r | r in w.sys.cores :: if r < k && r != v then VotedFirst(w.At(r)) else Fresh(w.At(r))
  }

  lemma {:induction false} OthersVoteForFirst(c: Config, v: ReplicaId, k: nat) returns (w: World)
    requires c.Valid() && c.Honest(v)
    ensures RunTo(c, w) && WorldInv(c, w) && OthersStage(w, v, k)
  {
    hide WorldInv, RunTo, Fresh, VotedFirst, CoreInv, VotesOk, Wired;
    if k == 0 {
      w := Start(c);
      HonestIsIn(c, w, v);
      WorldCore(c, w, v);
    } else {
      w := OthersVoteForFirst(c, v, k - 1);
      if k - 1 in w.sys.cores && k - 1 != v {
        w := VoteForFirst(c, w, k - 1);
      }
    }
  }

  /** v's own block. */
  function Lonely(): Block {
    Block([Genesis], [0], Cert(Genesis, {}), [])
  }

  /** What proposing it leaves at v. */
  predicate Waiting(s: Core) {
    && s.vheight == 1 && s.signed == [Lonely()] && s.hqc == s.bLock == Genesis
    && !Complete(s, Lonely())
  }

  lemma ProposeLonely(c: Config, w: World, v: ReplicaId, full: bool) returns (w': World)
    requires c.n >= 2 && WorldInv(c, w) && RunTo(c, w) && OthersStage(w, v, c.n)
    ensures RunTo(c, w') && WorldInv(c, w') && Moved(w, w', v)
    ensures w'.tails[v] == Lonely() && w'.beats[v] == Beat(Lonely(), {Genesis}) && Waiting(w'.At(v))
  {
    hide WorldInv, RunTo, WorldStep, CoreInv, VotesOk, Wired, Propose, Waiting, Handle, Allowed;
    WorldCore(c, w, v);
    var s, e := w.At(v), EvPropose(v, [0], [Genesis], [], full);
    assert NewBlock(s, [0], [Genesis], []) == Lonely();
    w' := ProposeMove(c, w, v, [0], full);
    RunOn(c, w, e, w');
    StepAllowed(c, w, e, w');
    WorldStepInv(c, w, e, w');
    HandleIsPropose(c, w, v, full);
    LonelyCore(c, w.sys.votes, s, full);
  }

  lemma LonelyCore(c: Config, votes: seq<Vote>, s: Core, full: bool)
    requires c.n >= 2 && CoreInv(c, votes, s) && Wired(s) && VotesOk(c, votes) && Fresh(s)
    requires s.nmajority == c.NMajority()
    ensures Waiting(Propose(c.build, s, [0], [Genesis], [], full).core)
  {
    hide CoreInv, VotesOk, StorageWired, Propose, Grows, CertsKept, DeliversOnly, Executed;
    LonelyShape();
    ProposeEffect(c, votes, s, [0], Genesis, [], full);
    assert NewBlock(s, [0], [Genesis], []) == Lonely();
    assert Collected(s, Lonely()).signers + {s.id} == {s.id};
    FewSigners(Propose(c.build, s, [0], [Genesis], [], full).core, s.id);
    assert [] + [Lonely()] == [Lonely()];
  }

  lemma HandleIsPropose(c: Config, w: World, v: ReplicaId, full: bool)
    requires c.n >= 1 && w.Has(v) && Wired(w.At(v)) && w.At(v).hqcCert.obj == w.At(v).hqc
    requires Genesis in w.At(v).storage && Allowed(c, w.sys, EvPropose(v, [0], [Genesis], [], full))
    ensures Handle(c, w.sys, EvPropose(v, [0], [Genesis], [], full)) ==
      Propose(c.build, w.At(v), [0], [Genesis], [], full)
  {
    hide Propose;
  }

  lemma FewSigners(s: Core, v: ReplicaId)
    requires s.nmajority >= 2 && Lonely() in s.storage && s.storage[Lonely()].selfQc.Some?
    requires s.storage[Lonely()].selfQc.value.signers <= {v}
    ensures !Complete(s, Lonely())
  {
    SubsetSize(s.storage[Lonely()].selfQc.value.signers, {v});
  }

  /** Only v has signed its block, which is no quorum even with all faulty replicas. */
  lemma LonelyUncertified(c: Config, w: World, v: ReplicaId)
    requires c.n >= 2 && WorldInv(c, w) && v in w.sys.cores
    requires forall r | r in w.sys.cores && r != v :: VotedFirst(w.At(r))
    ensures !Certified(c, w.sys.votes, Lonely())
  {
    hide WorldInv;
    FollowerCores(c, w, v);
    if Certified(c, w.sys.votes, Lonely()) {
      var q :| IsQuorum(c, q) && SignedBy(c, w.sys.votes, Lonely(), q);
      forall r | r in q && c.Honest(r) ensures r == v {
        FollowerCores(c, w, r);
      }
      assert q <= c.faulty + {v};
      SubsetSize(q, c.faulty + {v});
      assert false;
    }
  }

  /** The end of the run: everyone backs v, whether it waits or not, and it could propose, but its last proposal is
    * not finished. */
  lemma AllBack(c: Config, w: World, v: ReplicaId, waits: bool)
    requires c.n >= 2 && WorldInv(c, w) && w.Has(v) && w.tails[v] == Lonely() && Waiting(w.At(v))
    requires forall r | r in w.sys.cores && r != v :: VotedFirst(w.At(r))
    requires w.beats[v] == Beat(Lonely(), {Genesis})
    ensures var x := Setup(c, w, {v}, waits);
      && x.Valid() && |Backers(x, v)| >= c.NMajority() && Height(w.tails[v]) + 1 > w.At(v).vheight
      && !WaitOver(w, v) && (CanDrive(x, v) <==> !waits)
  {
    hide WorldInv;
    var x := Setup(c, w, {v}, waits);
    FollowerCores(c, w, v);
    FollowersAreQuorum(c);
    LonelyShape();
    forall u | u in Followers(c) ensures u in Backers(x, v) {
      FollowerCores(c, w, u);
    }
    SubsetSize(Followers(c), Backers(x, v));
  }

  lemma LonelyShape()
    ensures Height(Lonely()) == 1 && Extends(Lonely(), Genesis) && Lonely() != Genesis && Lonely() != First()
    ensures Height(Genesis) == 0
  {
  }

  /** In every system of at least two replicas, whichever rule-following replica v is the proposer, some run ends so
    * that v could go on if it did not wait for certificates, everyone backs it, and yet, if it waits, nothing new is
    * ever executed without the faulty replicas: its last proposal, which only it has signed, is not finished and never
    * will be. */
  lemma WaitsForEver(c: Config, v: ReplicaId, full: bool) returns (ws: seq<World>, es: seq<Event>)
    requires c.Valid() && c.n >= 2 && c.Honest(v)
    ensures IsWorldRun(c, ws, es) && |ws| == |es| + 1 && ws[|es|].Has(v)
    ensures var w := ws[|es|];
      && !WaitOver(w, v) && !Certified(c, w.sys.votes, w.beats[v].last)
      && CanDrive(Setup(c, w, {v}, false), v) && !CanDrive(Setup(c, w, {v}, true), v)
      && |Backers(Setup(c, w, {v}, true), v)| >= c.NMajority() && Height(w.tails[v]) + 1 > w.At(v).vheight
    ensures forall w, r, b | Reached(Setup(c, ws[|es|], {v}, true), w) && r in w.sys.cores && b in w.At(r).log ::
      !New(ws[|es|], b)
  {
    hide WorldInv, RunTo, New, Reached, VotedFirst, Waiting, Backers, CanDrive, Certified, IsWorldRun;
    var w0 := OthersVoteForFirst(c, v, c.n);
    var end := ProposeLonely(c, w0, v, full);
    forall r | r in end.sys.cores && r != v ensures VotedFirst(end.At(r)) {
      FollowerCores(c, w0, r);
    }
    AllBack(c, end, v, false);
    AllBack(c, end, v, true);
    LonelyUncertified(c, end, v);
    RunOf(c, end);
    ws, es :| IsWorldRun(c, ws, es) && |ws| == |es| + 1 && ws[|es|] == end;
    var x := Setup(c, end, {v}, true);
    forall w, r, b | Reached(x, w) && r in w.sys.cores && b in w.At(r).log ensures !New(end, b) {
      CannotDrive(x, v, w, r, b);
    }
  }

  lemma RunOf(c: Config, w: World)
    requires c.n >= 1 && RunTo(c, w)
    ensures exists ws, es :: IsWorldRun(c, ws, es) && |ws| == |es| + 1 && ws[|es|] == w
  {
  }
}
