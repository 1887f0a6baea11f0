/** When a proposer can go on: exactly when it can propose, its wait is over, and a quorum backs it.  Then four rounds
  * of its own blocks, shown to the others and voted for, make every rule-following replica execute the first of
  * them. */
module Driving {
  import opened Blocks
  import opened Votes
  import opened ConsensusCore
  import opened Invariant
  import opened Preservation
  import opened Handlers
  import opened Agreement
  import opened PaceMaker
  import opened Effects
  import opened Worlds
  import opened Moves
  import opened Standstill
  import opened Backing

  /** w has been reached, and v is one of those who may propose. */
  ghost predicate Going(x: Setup, v: ReplicaId, w: World) {
    x.Valid() && Reached(x, w) && ReachInv(x, w) && x.base.Has(v) && w.Has(v) && v in x.leaders
  }

  lemma GoOn(x: Setup, v: ReplicaId, w: World, e: Event, w': World)
    requires Going(x, v, w) && x.c.n >= 1 && Unaided(x, w, e) && WorldStep(x.c, w, e, w')
    ensures Going(x, v, w') && w.sys.votes <= w'.sys.votes
  {
    hide Unaided, WorldStep, Reached, ReachInv, New, WorldInv;
    ReachedNext(x, w, e, w');
    ReachStep(x, w, e, w');
    HasLeader(x, w', v);
  }

  // ---------- bringing v's blocks to the others ----------

  /** w' differs from w in what u has stored only. */
  ghost predicate Fed(w: World, u: ReplicaId, w': World) {
    && Moved(w, w', u) && Kept(w.At(u), w'.At(u)) && w'.sys.votes == w.sys.votes
    && w'.tails == w.tails && w'.beats == w.beats
  }

  lemma FedTransitive(w: World, u: ReplicaId, w': World, w'': World)
    requires Fed(w, u, w') && Fed(w', u, w'')
    ensures Fed(w, u, w'')
  {
  }

  lemma FedParts(w: World, u: ReplicaId, w': World, v: ReplicaId)
    requires Fed(w, u, w')
    ensures u in w'.sys.cores && w'.tails == w.tails && w'.beats == w.beats && w'.sys.votes == w.sys.votes
    ensures v in w.sys.cores && v != u ==> v in w'.sys.cores && w'.At(v) == w.At(v)
    ensures u in w.sys.cores && forall p | DeliveredIn(w.At(u).storage, p) :: DeliveredIn(w'.At(u).storage, p)
  {
  }

  lemma FedSelf(x: Setup, w: World, u: ReplicaId)
    requires ReachInv(x, w) && u in w.sys.cores
    ensures Fed(w, u, w)
  {
    hide WorldInv, New;
    assert w.Has(u) by {
      ReachWorld(x, w);
      WorldCore(x.c, w, u);
    }
  }

  /** What v has delivered may be delivered elsewhere. */
  lemma SourceSound(x: Setup, v: ReplicaId, w: World, b: Block)
    requires Going(x, v, w) && DeliveredIn(w.At(v).storage, b) && b != Genesis
    ensures Admissible(x.c, w.sys.votes, b) && LowerParents(b)
    ensures forall p | p in b.parents :: DeliveredIn(w.At(v).storage, p)
  {
    hide WorldInv, CoreInv, VotesOk, Wired, Admissible, Extends, Height, Intact, Cleared, Reached, New, OwnCerts;
    WorldCore(x.c, w, v);
    InvBlk(x.c, w.sys.votes, w.At(v), b);
    forall p | p in b.parents ensures DeliveredIn(w.At(v).storage, p) && Height(p) < Height(b) {
      assert p in b.Parents();
    }
  }

  lemma {:induction false} Feed(x: Setup, v: ReplicaId, w: World, u: ReplicaId, b: Block) returns (w': World)
    requires Going(x, v, w) && u in w.sys.cores && u != v && DeliveredIn(w.At(v).storage, b)
    ensures Going(x, v, w') && Fed(w, u, w') && DeliveredIn(w'.At(u).storage, b)
    decreases b, 1, 0
  {
    hide Going, ReachInv, Kept, Admissible, LowerParents, Wired, Fed, WorldInv, Setup.Valid;
    GoingParts(x, v, w);
    if DeliveredIn(w.At(u).storage, b) {
      FedSelf(x, w, u);
      w' := w;
    } else {
      GenesisThere(x, w, u);
      SourceSound(x, v, w, b);
      var w1 := FeedParents(x, v, w, u, b, |b.parents|);
      FedParts(w, u, w1, v);
      assert forall p | p in b.parents :: DeliveredIn(w1.At(u).storage, p);
      w' := FeedOne(x, v, w1, u, b);
      FedTransitive(w, u, w1, w');
    }
  }

  lemma {:induction false} FeedParents(x: Setup, v: ReplicaId, w: World, u: ReplicaId, b: Block, k: nat)
    returns (w': World)
    requires Going(x, v, w) && u in w.sys.cores && u != v && DeliveredIn(w.At(v).storage, b) && b != Genesis
    requires k <= |b.parents|
    ensures Going(x, v, w') && Fed(w, u, w')
    ensures forall i | 0 <= i < k :: DeliveredIn(w'.At(u).storage, b.parents[i])
    decreases b, 0, k
  {
    hide Going, ReachInv, Wired, Fed, Admissible, LowerParents, WorldInv, Setup.Valid, DeliveredIn;
    GoingParts(x, v, w);
    if k == 0 {
      FedSelf(x, w, u);
      w' := w;
    } else {
      SourceSound(x, v, w, b);
      var w1 := FeedParents(x, v, w, u, b, k - 1);
      FedParts(w, u, w1, v);
      w' := Feed(x, v, w1, u, b.parents[k - 1]);
      FedParts(w1, u, w', v);
      FedTransitive(w, u, w1, w');
    }
  }

  lemma FeedOne(x: Setup, v: ReplicaId, w: World, u: ReplicaId, b: Block) returns (w': World)
    requires Going(x, v, w) && u in w.sys.cores && u != v && DeliveredIn(w.At(v).storage, b) && b != Genesis
    requires forall p | p in b.parents :: DeliveredIn(w.At(u).storage, p)
    ensures Going(x, v, w') && Fed(w, u, w') && DeliveredIn(w'.At(u).storage, b)
  {
    hide Going, ReachInv, WorldInv, Kept, Admissible, LowerParents, Wired, WorldStep;
    GoingParts(x, v, w);
    SourceSound(x, v, w, b);
    var w1;
    w1, w' := TakeMoves(x.c, w, u, b);
    GoOn(x, v, w, EvFetch(u, b), w1);
    GoOn(x, v, w1, EvDeliver(u, b), w');
  }

  lemma GoingParts(x: Setup, v: ReplicaId, w: World)
    requires Going(x, v, w)
    ensures x.Valid() && ReachInv(x, w) && WorldInv(x.c, w) && x.base.Has(v) && w.Has(v) && v in x.leaders
    ensures w.sys.cores.Keys == x.base.sys.cores.Keys && x.c.n >= 2
  {
  }

  lemma GenesisThere(x: Setup, w: World, u: ReplicaId)
    requires ReachInv(x, w) && u in w.sys.cores
    ensures DeliveredIn(w.At(u).storage, Genesis)
  {
    hide WorldInv, CoreInv, VotesOk, Wired, New, StoreOk;
    ReachWorld(x, w);
    WorldCore(x.c, w, u);
    InvStore(x.c, w.sys.votes, w.At(u));
    GenesisDecided(x.c, w.sys.votes, w.At(u).storage, w.At(u).bExec);
  }

  // ---------- showing them ----------

  lemma KeptShown(build: Build, s: Core, s1: Core, s': Core, b: Block)
    requires Kept(s, s1) && Shown(build, s1, s', b)
    ensures Shown(build, s, s', b)
  {
    hide Height, LockTarget, ChainHead;
  }

  /** v's block b is shown to u. */
  lemma ShowTo(x: Setup, v: ReplicaId, w: World, u: ReplicaId, b: Block) returns (w': World)
    requires Going(x, v, w) && u in w.sys.cores && u != v
    requires New(x.base, b) && b in w.At(v).signed && DeliveredIn(w.At(v).storage, b)
    ensures Going(x, v, w') && Moved(w, w', u) && Shown(x.c.build, w.At(u), w'.At(u), b)
    ensures w.sys.votes <= w'.sys.votes && DeliveredIn(w'.At(u).storage, b)
  {
    hide Going, ReachInv, WorldInv, Kept, Shown, WorldStep, New;
    GoingParts(x, v, w);
    GenesisIsOld(x, v);
    var w1 := Feed(x, v, w, u, b);
    GoingParts(x, v, w1);
    w' := ShowMove(x.c, w1, u, b);
    assert w1.At(v) == w.At(v);
    GoOn(x, v, w1, EvProposal(u, b), w');
    KeptShown(x.c.build, w.At(u), w1.At(u), w'.At(u), b);
  }

  /** w' differs from w in that b has been shown to the replicas of q below k. */
  ghost predicate ShownTo(x: Setup, v: ReplicaId, w: World, w': World, b: Block, q: set<ReplicaId>, k: nat) {
    && w'.sys.cores.Keys == w.sys.cores.Keys && w.sys.votes <= w'.sys.votes && w.Has(v) && w'.Has(v)
    && w'.tails[v] == w.tails[v] && w'.beats[v] == w.beats[v] && w'.At(v) == w.At(v)
    && forall u | u in w.sys.cores && u != v ::
      if u < k && u in q then Shown(x.c.build, w.At(u), w'.At(u), b) && DeliveredIn(w'.At(u).storage, b)
      else w'.At(u) == w.At(u)
  }

  lemma ShownNone(x: Setup, v: ReplicaId, w: World, b: Block, q: set<ReplicaId>)
    requires w.Has(v)
    ensures ShownTo(x, v, w, w, b, q, 0)
  {
  }

  lemma ShownSkip(x: Setup, v: ReplicaId, w: World, w': World, b: Block, q: set<ReplicaId>, k: nat)
    requires ShownTo(x, v, w, w', b, q, k) && (k in q && k in w'.sys.cores ==> k == v)
    ensures ShownTo(x, v, w, w', b, q, k + 1)
  {
    hide Shown, DeliveredIn;
  }

  lemma ShownOneMore(x: Setup, v: ReplicaId, w: World, w1: World, w': World, b: Block, q: set<ReplicaId>, k: nat)
    requires ShownTo(x, v, w, w1, b, q, k) && k in q && k in w1.sys.cores && k != v
    requires Moved(w1, w', k) && Shown(x.c.build, w1.At(k), w'.At(k), b) && DeliveredIn(w'.At(k).storage, b)
    requires w1.sys.votes <= w'.sys.votes
    ensures ShownTo(x, v, w, w', b, q, k + 1)
  {
    hide Shown, DeliveredIn;
  }

  lemma ShownLeader(x: Setup, v: ReplicaId, w: World, w': World, b: Block, q: set<ReplicaId>, k: nat)
    requires ShownTo(x, v, w, w', b, q, k)
    ensures w.Has(v) && w'.Has(v) && w'.At(v) == w.At(v)
  {
  }

  lemma {:induction false} ShowAll(x: Setup, v: ReplicaId, w: World, b: Block, q: set<ReplicaId>, k: nat)
    returns (w': World)
    requires Going(x, v, w)
    requires New(x.base, b) && b in w.At(v).signed && DeliveredIn(w.At(v).storage, b)
    ensures Going(x, v, w') && ShownTo(x, v, w, w', b, q, k)
    decreases k
  {
    hide Going, Shown, New, ShownTo, ReachInv, WorldInv, Setup.Valid, Moved, DeliveredIn;
    GoingParts(x, v, w);
    if k == 0 {
      ShownNone(x, v, w, b, q);
      w' := w;
    } else {
      var w1 := ShowAll(x, v, w, b, q, k - 1);
      ShownLeader(x, v, w, w1, b, q, k - 1);
      if k - 1 in q && k - 1 in w1.sys.cores && k - 1 != v {
        w' := ShowTo(x, v, w1, k - 1, b);
        ShownOneMore(x, v, w, w1, w', b, q, k - 1);
      } else {
        ShownSkip(x, v, w, w1, b, q, k - 1);
        w' := w1;
      }
    }
  }

  // ---------- proposing ----------

  /** Nothing new that s has stored is higher than t. */
  predicate NothingAbove(base: World, s: Core, t: Block) {
    forall y | y in s.storage && New(base, y) :: Height(y) <= Height(t)
  }

  /** What a successful proposal of b, made in s, leaves at the proposer. */
  ghost predicate Made(x: Setup, s: Core, s': Core, t: Block, b: Block) {
    && b.Parents() == [t] && b.QcObj() == s.hqc && New(x.base, b) && Height(b) == Height(t) + 1
    && s'.hqc == s.hqc && s'.signed == s.signed + [b] && s'.vheight == Height(b)
    && OnTop(s', b) && NothingAbove(x.base, s', b)
    && Executed(x.c.build, s', b)
  }

  lemma ProposeBy(x: Setup, v: ReplicaId, w: World, cmds: seq<Command>, full: bool) returns (w': World, b: Block)
    requires Going(x, v, w) && Height(w.tails[v]) + 1 > w.At(v).vheight
    requires New(x.base, NewBlock(w.At(v), cmds, [w.tails[v]], []))
    requires x.waits ==> WaitOver(w, v)
    requires NothingAbove(x.base, w.At(v), w.tails[v])
    ensures Going(x, v, w') && Moved(w, w', v) && w.sys.votes <= w'.sys.votes
    ensures w'.tails[v] == w'.beats[v].last == b && b == NewBlock(w.At(v), cmds, [w.tails[v]], [])
    ensures Made(x, w.At(v), w'.At(v), w.tails[v], b)
  {
    hide Going, ReachInv, WorldInv, WorldStep, New, WaitOver, CertsKept, Grows, Height, LockTarget, Executed, NewBlock;
    GoingParts(x, v, w);
    var t := w.tails[v];
    var e := EvPropose(v, cmds, [t], [], full);
    w' := ProposeMove(x.c, w, v, cmds, full);
    b := NewBlock(w.At(v), cmds, [t], []);
    assert Unaided(x, w, e);
    GoOn(x, v, w, e, w');
    ProposedEffect(x, w, e, w');
    GoingParts(x, v, w');
    NewBlockParents(w.At(v), cmds, t);
    NewOnTop(x, v, w, w', b);
  }

  lemma NewBlockParents(s: Core, cmds: seq<Command>, t: Block)
    ensures NewBlock(s, cmds, [t], []) == Block([t], cmds, s.hqcCert, [])
  {
  }

  /** A block higher than all new ones is not there yet, and nothing is built on it. */
  lemma NewOnTop(x: Setup, v: ReplicaId, w: World, w': World, b: Block)
    requires ReachInv(x, w) && ReachInv(x, w') && w.Has(v) && w'.Has(v)
    requires New(x.base, b) && Height(b) == Height(w.tails[v]) + 1 && NothingAbove(x.base, w.At(v), w.tails[v])
    requires Proposed(x.c.build, w.At(v), w'.At(v), b)
    ensures OnTop(w'.At(v), b) && NothingAbove(x.base, w'.At(v), b)
  {
    hide WorldInv, New, OwnCerts, CoreInv, VotesOk, Wired, StoreOk, Height, CertsKept, Grows;
    var s, s' := w.At(v), w'.At(v);
    ReachWorld(x, w);
    assert b !in s.storage;
    WorldCore(x.c, w, v);
    InvStore(x.c, w.sys.votes, s);
    forall y | DeliveredIn(s'.storage, y) && Extends(y, b) ensures y == b {
      if y != b {
        AncestorDelivered(x.c, w.sys.votes, s.storage, s.bExec, y, b);
      }
    }
  }

  // ---------- a certificate ----------

  /** Once all of a quorum q have signed v's block b, v gets its certificate. */
  lemma Certify(x: Setup, v: ReplicaId, w: World, b: Block, q: set<ReplicaId>) returns (w': World)
    requires Going(x, v, w) && OnTop(w.At(v), b) && New(x.base, b) && Height(b) > Height(w.At(v).hqc)
    requires q <= w.sys.cores.Keys && |q| >= x.c.NMajority()
    requires forall u | u in q :: b in w.At(u).signed
    ensures Going(x, v, w') && Moved(w, w', v) && w.sys.votes <= w'.sys.votes
    ensures w'.At(v) == w.At(v).(hqc := b, hqcCert := Cert(b, q)) && w'.tails[v] == b
    ensures w'.beats[v].last == w.beats[v].last && b in w'.beats[v].finished
  {
    hide Going, ReachInv, WorldInv, WorldStep, New, OnTop, Height;
    GoingParts(x, v, w);
    forall u | u in q ensures u in Followers(x.c) && Vote(u, b) in w.sys.votes {
      HonestIsIn(x.c, w, u);
      SignedAreVotes(x.c, w, u, b);
    }
    assert CertOk(x.c, w.sys.votes, Cert(b, q));
    w' := CertifyMove(x.c, w, v, b, Cert(b, q));
    GoOn(x, v, w, EvCertificate(v, b, Cert(b, q)), w');
  }

  lemma SignedAreVotes(c: Config, w: World, u: ReplicaId, b: Block)
    requires WorldInv(c, w) && u in w.sys.cores && b in w.At(u).signed
    ensures Vote(u, b) in w.sys.votes && u in Followers(c)
  {
    hide StoreOk, TailsOk, VoterOk, VotesOk, LogOk, PtrsOk;
    WorldCore(c, w, u);
  }

  // ---------- one round ----------

  /** u would vote for b. */
  predicate Ready(s: Core, b: Block) {
    VoteRule(s, b) && !s.voteDisabled
  }

  /** v has made b, and all of the quorum q would vote for it. */
  ghost predicate Offered(x: Setup, v: ReplicaId, w: World, q: set<ReplicaId>, b: Block) {
    && Going(x, v, w) && w.tails[v] == w.beats[v].last == b && New(x.base, b)
    && OnTop(w.At(v), b) && NothingAbove(x.base, w.At(v), b)
    && b in w.At(v).signed && w.At(v).vheight == Height(b) && b.QcObj() == w.At(v).hqc
    && Height(w.At(v).hqc) < Height(b)
    && v in q && q <= w.sys.cores.Keys && |q| >= x.c.NMajority()
    && forall u | u in q && u != v :: Ready(w.At(u), b)
  }

  /** s has voted for b and is open to what is built on it. */
  predicate Ahead(s: Core, b: Block) {
    && s.vheight == Height(b) && !s.voteDisabled
    && (Height(b) > Height(s.bLock) || Extends(b, s.bLock))
  }

  /** v holds the certificate of its block b, and all of q are ready for the next. */
  ghost predicate Carried(x: Setup, v: ReplicaId, w: World, q: set<ReplicaId>, b: Block) {
    && Going(x, v, w) && w.tails[v] == b && New(x.base, b) && WaitOver(w, v)
    && NothingAbove(x.base, w.At(v), b)
    && w.At(v).vheight == Height(b) && w.At(v).hqc == b
    && v in q && q <= w.sys.cores.Keys && |q| >= x.c.NMajority()
    && forall u | u in q && u != v :: Ahead(w.At(u), b)
  }

  /** Voting for b leaves a replica open to what is built on it. */
  lemma VotedAhead(x: Setup, w: World, u: ReplicaId, s: Core, s': Core, b: Block)
    requires ReachInv(x, w) && u in w.sys.cores && s' == w.At(u) && DeliveredIn(s'.storage, b) && b != Genesis
    requires Shown(x.c.build, s, s', b) && Ready(s, b)
    ensures Ahead(s', b) && b in s'.signed
  {
    hide WorldInv, CoreInv, VotesOk, Wired, StoreOk, Certified, CertOk, ChainHead;
    ReachWorld(x, w);
    WorldCore(x.c, w, u);
    InvStore(x.c, w.sys.votes, s');
    QcObjDelivered(x.c, w.sys.votes, s'.storage, s'.bExec, b);
    QcObjDelivered(x.c, w.sys.votes, s'.storage, s'.bExec, b.QcObj());
    if x.c.build.ThreeStep? {
      ExtendsTransitive(b, b.QcObj(), LockTarget(x.c.build, b));
    }
  }

  lemma RoundOf(x: Setup, v: ReplicaId, w: World, q: set<ReplicaId>, b: Block) returns (w': World)
    requires Offered(x, v, w, q, b)
    ensures Carried(x, v, w', q, b) && w.sys.votes <= w'.sys.votes
  {
    hide Going, New, OnTop, NothingAbove, Shown, Ready, Ahead, ReachInv, WorldInv, Setup.Valid, Height;
    GoingParts(x, v, w);
    GenesisIsOld(x, v);
    TopDelivered(w.At(v), b);
    var w1 := ShowAll(x, v, w, b, q, x.c.n);
    GoingParts(x, v, w1);
    forall u | u in q && u != v ensures Ahead(w1.At(u), b) && b in w1.At(u).signed {
      IdBound(x, w, u);
      VotedAhead(x, w1, u, w.At(u), w1.At(u), b);
    }
    w' := Certify(x, v, w1, b, q);
    SameStored(x.base, w1.At(v), w'.At(v), b);
  }

  lemma TopDelivered(s: Core, b: Block)
    requires OnTop(s, b)
    ensures DeliveredIn(s.storage, b)
  {
  }

  lemma IdBound(x: Setup, w: World, u: ReplicaId)
    requires ReachInv(x, w) && u in w.sys.cores
    ensures u < x.c.n
  {
    hide WorldInv;
    ReachWorld(x, w);
    HonestIsIn(x.c, w, u);
  }

  lemma SameStored(base: World, s: Core, s': Core, b: Block)
    requires s'.storage == s.storage && NothingAbove(base, s, b)
    ensures NothingAbove(base, s', b)
  {
  }

  // ---------- the next block ----------

  /** N bounds the heights and the numbers of commands of all that is known at base. */
  predicate Bounded(x: Setup, N: nat) {
    forall r | r in x.base.sys.cores ::
      && x.base.At(r).vheight <= N
      && (forall y | y in x.base.At(r).storage :: Height(y) <= N && |y.Cmds()| <= N)
      && (forall y | y in x.base.At(r).signed :: Height(y) <= N && |y.Cmds()| <= N)
  }

  lemma {:induction false} SetBound(q: set<Block>) returns (N: nat)
    ensures forall y | y in q :: Height(y) <= N && |y.Cmds()| <= N
    decreases q
  {
    hide Height;
    if q == {} {
      N := 0;
    } else {
      var y :| y in q;
      var M := SetBound(q - {y});
      N := M + Height(y) + |y.Cmds()|;
    }
  }

  lemma {:induction false} SomeBound(x: Setup, k: nat) returns (N: nat)
    ensures forall r | r in x.base.sys.cores && r < k ::
      && x.base.At(r).vheight <= N
      && (forall y | y in x.base.At(r).storage :: Height(y) <= N && |y.Cmds()| <= N)
      && (forall y | y in x.base.At(r).signed :: Height(y) <= N && |y.Cmds()| <= N)
    decreases k
  {
    hide Height;
    if k == 0 {
      N := 0;
    } else {
      N := SomeBound(x, k - 1);
      if k - 1 in x.base.sys.cores {
        var s := x.base.At(k - 1);
        var A := SetBound(s.storage.Keys);
        var B := SetBound(set y | y in s.signed);
        N := N + A + B + s.vheight;
      }
    }
  }

  lemma HasBound(x: Setup) returns (N: nat)
    requires x.Valid()
    ensures Bounded(x, N)
  {
    hide WorldInv, Height;
    BaseReachInv(x);
    N := SomeBound(x, x.c.n);
    forall r | r in x.base.sys.cores ensures r < x.c.n {
      IdBound(x, x.base, r);
    }
  }

  lemma BeyondBound(x: Setup, N: nat, b: Block)
    requires Bounded(x, N) && (Height(b) > N || |b.Cmds()| > N)
    ensures New(x.base, b)
  {
    hide Height;
  }

  /** More commands than any known block has. */
  function Filler(N: nat): seq<Command> {
    seq(N + 1, _ => 0)
  }

  lemma NextReady(s: Core, b: Block, next: Block)
    requires Ahead(s, b) && next.Parents() == [b] && next.QcObj() == b && Height(next) == Height(b) + 1
    ensures Ready(s, next)
  {
    hide Height;
  }

  lemma NextOffer(x: Setup, v: ReplicaId, w: World, q: set<ReplicaId>, b: Block, N: nat, full: bool)
    returns (w': World, next: Block)
    requires Carried(x, v, w, q, b) && Bounded(x, N)
    ensures Offered(x, v, w', q, next) && w.sys.votes <= w'.sys.votes
    ensures next.Parents() == [b] && next.QcObj() == b && Executed(x.c.build, w'.At(v), next)
  {
    hide Going, New, OnTop, NothingAbove, Ready, Ahead, ReachInv, WorldInv, Setup.Valid, Height, Executed, WaitOver,
         Bounded;
    GoingParts(x, v, w);
    NewBlockParents(w.At(v), Filler(N), b);
    BeyondBound(x, N, NewBlock(w.At(v), Filler(N), [b], []));
    w', next := ProposeBy(x, v, w, Filler(N), full);
    GoingParts(x, v, w');
    forall u | u in q && u != v ensures Ready(w'.At(u), next) {
      NextReady(w.At(u), b, next);
    }
  }

  // ---------- the first block ----------

  /** v has built k blocks on its tail of base, and nobody else has moved. */
  ghost predicate Climbed(x: Setup, v: ReplicaId, w: World, k: nat) {
    && Going(x, v, w) && w.sys.cores.Keys == x.base.sys.cores.Keys
    && (forall u | u in w.sys.cores && u != v :: w.At(u) == x.base.At(u))
    && Tower(x, v, w.tails[v]) && Height(w.tails[v]) == Height(x.base.tails[v]) + k
    && w.At(v).hqc == x.base.At(v).hqc && NothingAbove(x.base, w.At(v), w.tails[v])
    && Height(w.tails[v]) + 1 > w.At(v).vheight
    && (k == 0 ==> w == x.base)
  }

  lemma ClimbStart(x: Setup, v: ReplicaId)
    requires x.Valid() && x.base.Has(v) && v in x.leaders && Height(x.base.tails[v]) + 1 > x.base.At(v).vheight
    ensures Climbed(x, v, x.base, 0)
  {
    hide WorldInv, Height, Reached;
    ReachedBase(x);
    BaseReachInv(x);
  }

  lemma ClimbedParts(x: Setup, v: ReplicaId, w: World, k: nat)
    requires x.base.Has(v) && Climbed(x, v, w, k)
    ensures Going(x, v, w) && w.Has(v) && Height(w.tails[v]) + 1 > w.At(v).vheight
    ensures NothingAbove(x.base, w.At(v), w.tails[v])
    ensures Height(w.tails[v]) == Height(x.base.tails[v]) + k && w.At(v).hqc == x.base.At(v).hqc
    ensures Tower(x, v, w.tails[v]) && (k == 0 ==> w == x.base)
    ensures forall u | u in w.sys.cores && u != v :: u in x.base.sys.cores && w.At(u) == x.base.At(u)
  {
    hide NothingAbove, Tower, Height, ReachInv, Reached, WorldInv;
  }

  lemma ClimbedNext(x: Setup, v: ReplicaId, w: World, w': World, k: nat)
    requires x.base.Has(v) && Climbed(x, v, w, k) && Moved(w, w', v) && Going(x, v, w')
    requires Made(x, w.At(v), w'.At(v), w.tails[v], w'.tails[v])
    ensures Climbed(x, v, w', k + 1)
  {
    hide Going, New, OnTop, NothingAbove, Height, Executed;
    assert Tower(x, v, w'.tails[v]);
  }

  lemma ClimbOn(x: Setup, v: ReplicaId, N: nat, full: bool, w: World, k: nat) returns (w': World)
    requires x.base.Has(v) && Climbed(x, v, w, k) && Bounded(x, N) && !x.waits
    ensures Climbed(x, v, w', k + 1)
  {
    hide Going, New, Made, NothingAbove, Tower, Height, Bounded, WaitOver, Climbed;
    ClimbedParts(x, v, w, k);
    var t := w.tails[v];
    NewBlockParents(w.At(v), Filler(N), t);
    BeyondBound(x, N, NewBlock(w.At(v), Filler(N), [t], []));
    var b;
    w', b := ProposeBy(x, v, w, Filler(N), full);
    ClimbedNext(x, v, w, w', k);
  }

  lemma {:induction false} Climb(x: Setup, v: ReplicaId, N: nat, full: bool, k: nat) returns (w: World)
    requires x.Valid() && x.base.Has(v) && v in x.leaders && Height(x.base.tails[v]) + 1 > x.base.At(v).vheight
    requires Bounded(x, N) && !x.waits
    ensures Climbed(x, v, w, k)
    decreases k
  {
    hide Climbed, WorldInv, Height, Bounded;
    if k == 0 {
      ClimbStart(x, v);
      w := x.base;
    } else {
      w := Climb(x, v, N, full, k - 1);
      w := ClimbOn(x, v, N, full, w, k - 1);
    }
  }

  /** A backer would vote for a new block on v's tower that is high enough. */
  lemma BackerReady(x: Setup, v: ReplicaId, N: nat, u: ReplicaId, b: Block)
    requires x.Valid() && x.base.Has(v) && u in Backers(x, v) && u != v && Bounded(x, N)
    requires Tower(x, v, b) && b.QcObj() == x.base.At(v).hqc
    requires Height(b) > N || (x.waits && Height(b) == Height(x.base.tails[v]) + 1)
    ensures Ready(x.base.At(u), b)
  {
    hide WorldInv, New, Height;
    TowerExtends(x, v, b, b);
    if Extends(x.base.tails[v], x.base.At(u).bLock) {
      ExtendsTransitive(b, x.base.tails[v], x.base.At(u).bLock);
    }
  }

  lemma LeaderBacks(x: Setup, v: ReplicaId)
    requires x.Valid() && x.base.Has(v) && CanDrive(x, v)
    ensures v in Backers(x, v) && Backers(x, v) <= x.base.sys.cores.Keys
  {
    hide WorldInv, Height, Shut;
    LeaderBase(x, v);
  }

  /** v, having climbed far enough, makes the block. */
  lemma OfferFrom(x: Setup, v: ReplicaId, cmds: seq<Command>, full: bool, N: nat, w0: World, k: nat)
    returns (w: World, b: Block)
    requires x.Valid() && x.base.Has(v) && Climbed(x, v, w0, k) && Bounded(x, N) && CanDrive(x, v)
    requires w0.Has(v) && New(x.base, NewBlock(w0.At(v), cmds, [w0.tails[v]], []))
    requires if x.waits then k == 0 else k >= N
    ensures Offered(x, v, w, Backers(x, v), b) && b.Cmds() == cmds
  {
    hide Going, New, NothingAbove, Tower, Height, Bounded, Made, WaitOver, Climbed, Backers, Offered, WorldInv;
    ClimbedParts(x, v, w0, k);
    NewBlockParents(w0.At(v), cmds, w0.tails[v]);
    w, b := ProposeBy(x, v, w0, cmds, full);
    MadeOffer(x, v, N, w0, k, w);
  }

  /** What v makes stands on its tail: above the lock and the certificate of every backer. */
  lemma MadeTower(x: Setup, v: ReplicaId, N: nat, w0: World, k: nat, s': Core, b: Block)
    requires x.Valid() && x.base.Has(v) && Climbed(x, v, w0, k)
    requires if x.waits then k == 0 else k >= N
    requires w0.Has(v) && Made(x, w0.At(v), s', w0.tails[v], b)
    ensures Tower(x, v, b) && b.QcObj() == x.base.At(v).hqc && Height(x.base.At(v).hqc) < Height(b)
    ensures Height(b) > N || (x.waits && Height(b) == Height(x.base.tails[v]) + 1)
  {
    hide Going, New, OnTop, NothingAbove, Height, Executed, WorldInv, Climbed;
    ClimbedParts(x, v, w0, k);
    LeaderBase(x, v);
  }

  lemma BackersReady(x: Setup, v: ReplicaId, N: nat, w: World, b: Block)
    requires x.Valid() && x.base.Has(v) && CanDrive(x, v) && Bounded(x, N)
    requires Tower(x, v, b) && b.QcObj() == x.base.At(v).hqc
    requires Height(b) > N || (x.waits && Height(b) == Height(x.base.tails[v]) + 1)
    requires w.sys.cores.Keys == x.base.sys.cores.Keys
    requires forall u | u in w.sys.cores && u != v :: w.At(u) == x.base.At(u)
    ensures v in Backers(x, v) && Backers(x, v) <= w.sys.cores.Keys
    ensures forall u | u in Backers(x, v) && u != v :: Ready(w.At(u), b)
  {
    LeaderBacks(x, v);
    hide *;
    forall u | u in Backers(x, v) && u != v ensures Ready(w.At(u), b) {
      BackerReady(x, v, N, u, b);
    }
  }

  lemma MadeOffer(x: Setup, v: ReplicaId, N: nat, w0: World, k: nat, w: World)
    requires w0.Has(v) && w.Has(v) && x.Valid() && x.base.Has(v)
    requires Climbed(x, v, w0, k) && Bounded(x, N) && CanDrive(x, v)
    requires if x.waits then k == 0 else k >= N
    requires Moved(w0, w, v) && Going(x, v, w) && w.beats[v].last == w.tails[v]
    requires Made(x, w0.At(v), w.At(v), w0.tails[v], w.tails[v])
    ensures Offered(x, v, w, Backers(x, v), w.tails[v])
  {
    hide Going, New, OnTop, NothingAbove, Ready, Height, Executed, Bounded, Backers, WaitOver, Climbed, WorldInv, Tower,
      Backs;
    var b := w.tails[v];
    ClimbedParts(x, v, w0, k);
    GoingParts(x, v, w);
    MadeTower(x, v, N, w0, k, w.At(v), b);
    BackersReady(x, v, N, w, b);
  }

  lemma FirstOffer(x: Setup, v: ReplicaId, cmds: seq<Command>, full: bool, N: nat) returns (w: World, b: Block)
    requires x.Valid() && x.base.Has(v) && v in x.leaders && Bounded(x, N) && CanDrive(x, v)
    requires x.waits ==> New(x.base, NewBlock(x.base.At(v), cmds, [x.base.tails[v]], []))
    ensures Offered(x, v, w, Backers(x, v), b) && b.Cmds() == cmds
  {
    hide New, WorldInv, Height, Bounded, Backers, WaitOver, Offered, Going, NothingAbove, Tower;
    var w0, k := x.base, if x.waits then 0 else N;
    if x.waits {
      ClimbStart(x, v);
    } else {
      w0 := Climb(x, v, N, full, N);
      GoingParts(x, v, w0);
      NewBlockHeight(w0.At(v), cmds, w0.tails[v]);
      BeyondBound(x, N, NewBlock(w0.At(v), cmds, [w0.tails[v]], []));
    }
    w, b := OfferFrom(x, v, cmds, full, N, w0, k);
  }

  lemma NewBlockHeight(s: Core, cmds: seq<Command>, t: Block)
    ensures Height(NewBlock(s, cmds, [t], [])) == Height(t) + 1
  {
  }

  // ---------- all of it ----------

  /** A replica shown b executes what the chain below b's certificate commits. */
  lemma ExecutesFirst(x: Setup, w: World, u: ReplicaId, b: Block, b1: Block, k: Block)
    requires ReachInv(x, w) && u in w.sys.cores && DeliveredIn(w.At(u).storage, b) && b != Genesis && b1 != Genesis
    requires Executed(x.c.build, w.At(u), b) && ChainHead(x.c.build, b.QcObj(), k) && Extends(k, b1)
    ensures b1 in w.At(u).log
  {
    hide WorldInv, CoreInv, VotesOk, Wired, Executed, ChainHead, Extends;
    ReachWorld(x, w);
    WorldCore(x.c, w, u);
    ExecutedExtends(x.c, w.sys.votes, w.At(u), b, k);
    ExtendsTransitive(w.At(u).bExec, k, b1);
    Executes(x.c, w.sys.votes, w.At(u), b1);
  }

  /** The last of four blocks, each on the one before and with its certificate, commits the first. */
  lemma ChainOfFour(build: Build, b1: Block, b2: Block, b3: Block)
    requires b2.Parents() == [b1] && b2.QcObj() == b1 && b3.Parents() == [b2] && b3.QcObj() == b2
    ensures var k := if build.TwoStep? then b2 else b1;
      ChainHead(build, b3, k) && Extends(k, b1)
  {
  }

  lemma OfferedNew(x: Setup, v: ReplicaId, w: World, q: set<ReplicaId>, b: Block)
    requires Offered(x, v, w, q, b)
    ensures Going(x, v, w) && New(x.base, b) && b != Genesis && b in w.At(v).signed && OnTop(w.At(v), b)
    ensures DeliveredIn(w.At(v).storage, b)
  {
    hide New, Height, Reached, ReachInv, WorldInv;
    GenesisIsOld(x, v);
  }

  lemma Drive(x: Setup, v: ReplicaId, cmds: seq<Command>, full: bool) returns (w: World, b: Block)
    requires x.Valid() && x.base.Has(v) && v in x.leaders && CanDrive(x, v)
    requires x.waits ==> New(x.base, NewBlock(x.base.At(v), cmds, [x.base.tails[v]], []))
    ensures Reached(x, w) && New(x.base, b) && b.Cmds() == cmds
    ensures w.sys.cores.Keys == x.base.sys.cores.Keys && forall r | r in w.sys.cores :: b in w.At(r).log
  {
    hide Going, New, ReachInv, WorldInv, Setup.Valid, Offered, Carried, CanDrive, ChainHead, Extends, Executed, Backers,
         DeliveredIn, Shown;
    var N := HasBound(x);
    var q := Backers(x, v);
    var w1, w2, w3, w4, b2, b3, b4;
    w1, b := FirstOffer(x, v, cmds, full, N);
    OfferedNew(x, v, w1, q, b);
    w1 := RoundOf(x, v, w1, q, b);
    w2, b2 := NextOffer(x, v, w1, q, b, N, full);
    w2 := RoundOf(x, v, w2, q, b2);
    w3, b3 := NextOffer(x, v, w2, q, b2, N, full);
    w3 := RoundOf(x, v, w3, q, b3);
    w4, b4 := NextOffer(x, v, w3, q, b3, N, full);
    OfferedNew(x, v, w4, q, b4);
    w := ShowAll(x, v, w4, b4, w4.sys.cores.Keys, x.c.n);
    GoingParts(x, v, w);
    GoingParts(x, v, w4);
    assert Reached(x, w) by {
      GoingIsReached(x, v, w);
    }
    ChainOfFour(x.c.build, b, b2, b3);
    var k := if x.c.build.TwoStep? then b2 else b;
    forall r | r in w.sys.cores ensures b in w.At(r).log {
      IdBound(x, w, r);
      if r != v {
        ShownExecutes(x.c.build, w4.At(r), w.At(r), b4);
      }
      ExecutesFirst(x, w, r, b4, b, k);
    }
  }

  lemma GoingIsReached(x: Setup, v: ReplicaId, w: World)
    requires Going(x, v, w)
    ensures Reached(x, w)
  {
  }

  lemma ShownExecutes(build: Build, s: Core, s': Core, b: Block)
    requires Shown(build, s, s', b)
    ensures Executed(build, s', b)
  {
  }

  /** The exact condition under which a proposer can go on.  From any moment of any run, whatever the faulty replicas
    * did in it, with v the only proposer and no more help from the faulty ones: if v can propose, does not wait for
    * the certificate of its last proposal, and is backed by a quorum, all rule-following replicas can come to execute
    * a new block with any commands; if not, none of them ever executes anything new. */
  lemma DrivesExactly(ws: seq<World>, es: seq<Event>, x: Setup, v: ReplicaId, cmds: seq<Command>, full: bool)
    requires x.c.Valid() && x.c.n >= 2 && x.c.Honest(v) && IsWorldRun(x.c, ws, es) && |ws| == |es| + 1
    requires x.base == ws[|es|] && x.leaders == {v}
    requires x.waits ==> x.base.Has(v) && New(x.base, NewBlock(x.base.At(v), cmds, [x.base.tails[v]], []))
    ensures x.base.Has(v)
    ensures CanDrive(x, v) <==> exists w, b ::
      && Reached(x, w) && New(x.base, b) && b.Cmds() == cmds
      && forall r | x.c.Honest(r) :: r in w.sys.cores && b in w.At(r).log
    ensures !CanDrive(x, v) ==>
      forall w, r, b | Reached(x, w) && r in w.sys.cores && b in w.At(r).log :: !New(x.base, b)
  {
    hide New, WorldInv, CanDrive, Reached, IsWorldRun;
    WorldRunInv(x.c, ws, es, |es|);
    HonestIsIn(x.c, x.base, v);
    WorldCore(x.c, x.base, v);
    assert x.Valid();
    if CanDrive(x, v) {
      var w, b := Drive(x, v, cmds, full);
      forall r | x.c.Honest(r) ensures r in w.sys.cores && b in w.At(r).log {
        HonestIsIn(x.c, x.base, r);
      }
    } else {
      forall w, r, b | Reached(x, w) && r in w.sys.cores && b in w.At(r).log ensures !New(x.base, b) {
        CannotDrive(x, v, w, r, b);
      }
    }
  }

  /** In particular, with voting enabled and no waiting, the holder of a highest certificate can go on exactly if its
    * tail is not lower than its last vote. */
  lemma HighestDrives(x: Setup, v: ReplicaId)
    requires x.Valid() && x.base.Has(v) && !x.waits
    requires forall u | u in x.base.sys.cores ::
      !x.base.At(u).voteDisabled && Height(x.base.At(u).hqc) <= Height(x.base.At(v).hqc)
    ensures CanDrive(x, v) <==> Height(x.base.tails[v]) >= x.base.At(v).vheight
  {
    hide WorldInv, CoreInv, VotesOk, Wired, New, Height, Extends, Certified, CertOk;
    FollowersAreQuorum(x.c);
    LeaderBase(x, v);
    WorldCore(x.c, x.base, v);
    LocksAreLow(x.c, x.base.sys.votes, x.base.At(v));
    CertIsCertified(x.c, x.base.sys.votes, x.base.At(v).hqcCert);
    forall u | u in Followers(x.c) ensures u in Backers(x, v) {
      HonestIsIn(x.c, x.base, u);
      WorldCore(x.c, x.base, u);
      LocksAreLow(x.c, x.base.sys.votes, x.base.At(u));
      if Height(x.base.At(v).hqc) == Height(x.base.At(u).bLock) {
        CertifiedUnique(x.c, x.base.sys.votes, x.base.At(v).hqc, x.base.At(u).bLock);
      }
    }
    SubsetSize(Followers(x.c), Backers(x, v));
  }
}
