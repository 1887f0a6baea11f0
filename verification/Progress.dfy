/** The vote rule never gets in the way: whatever has happened in a run, there are blocks that every rule-following
  * replica would vote for and execute.
  *
  * The rule could forbid it: a replica locked on one branch turns down blocks of another unless they carry a
  * certificate above its lock.  A block that carries the highest certificate any rule-following replica holds is
  * acceptable to all of them, and three more blocks on top of it commit it.  Here blocks may come from anywhere; the
  * module Driving says when a replica can make them. */
module Progress {
  import opened Blocks
  import opened Votes
  import opened ConsensusCore
  import opened Invariant
  import opened Preservation
  import opened Handlers
  import opened PlainRule
  import opened Agreement
  import opened Effects

  // ---------- continuing a run ----------

  /** The events es, each allowed when it happens, lead from y to y'. */
  ghost predicate Leads(c: Config, y: Sys, es: seq<Event>, y': Sys)
    requires c.n >= 1
    decreases |es|
  {
    if es == [] then y' == y else Allowed(c, y, es[0]) && Leads(c, Next(c, y, es[0]), es[1..], y')
  }

  /** What the rule-following replicas have at base suffices to deliver b: one of them has delivered it,
    * or it carries the highest certificate of one of them or a certificate that only they have signed. */
  ghost predicate AtHand(c: Config, base: Sys, b: Block) {
    || b.Qc().signers <= Followers(c)
    || exists r :: r in base.cores && (DeliveredIn(base.cores[r].storage, b) || b.Qc() == base.cores[r].hqcCert)
  }

  /** The event takes no block or certificate from a replica that does not follow the rule. */
  ghost predicate Unaided(c: Config, base: Sys, e: Event) {
    e.EvFetch? || e.EvProposal? || (e.EvDeliver? && AtHand(c, base, e.b))
  }

  /** Such events lead from y to y'. */
  ghost predicate CanReach(c: Config, base: Sys, y: Sys, y': Sys)
    requires c.n >= 1
  {
    exists es :: Leads(c, y, es, y') && forall e | e in es :: Unaided(c, base, e)
  }

  lemma {:induction false} LeadsOn(c: Config, y: Sys, es: seq<Event>, y': Sys, fs: seq<Event>, y'': Sys)
    requires c.n >= 1 && Leads(c, y, es, y') && Leads(c, y', fs, y'')
    ensures Leads(c, y, es + fs, y'')
    decreases |es|
  {
    hide Allowed, Next;
    if es == [] {
      assert es + fs == fs;
    } else {
      LeadsOn(c, Next(c, y, es[0]), es[1..], y', fs, y'');
      assert (es + fs)[1..] == es[1..] + fs;
    }
  }

  lemma ReachSelf(c: Config, base: Sys, y: Sys)
    requires c.n >= 1
    ensures CanReach(c, base, y, y)
  {
    assert Leads(c, y, [], y);
  }

  lemma ReachTransitive(c: Config, base: Sys, y: Sys, y': Sys, y'': Sys)
    requires c.n >= 1 && CanReach(c, base, y, y') && CanReach(c, base, y', y'')
    ensures CanReach(c, base, y, y'')
  {
    hide Leads, Unaided;
    var es :| Leads(c, y, es, y') && forall e | e in es :: Unaided(c, base, e);
    var fs :| Leads(c, y', fs, y'') && forall e | e in fs :: Unaided(c, base, e);
    LeadsOn(c, y, es, y', fs, y'');
  }

  lemma ReachNext(c: Config, base: Sys, y: Sys, e: Event)
    requires c.n >= 1 && Allowed(c, y, e) && Unaided(c, base, e)
    ensures CanReach(c, base, y, Next(c, y, e))
  {
    hide Allowed, Next, Unaided;
    assert [e][1..] == [];
    assert Leads(c, Next(c, y, e), [], Next(c, y, e));
    assert Leads(c, y, [e], Next(c, y, e));
  }

  /** What can be reached from the end of a run ends a longer one. */
  lemma {:induction false} ContinueRun(c: Config, ys: seq<Sys>, es: seq<Event>, fs: seq<Event>, y': Sys)
    returns (ys': seq<Sys>)
    requires c.n >= 1 && IsRun(c, ys, es) && Leads(c, ys[|es|], fs, y')
    ensures IsRun(c, ys', es + fs) && ys <= ys' && ys'[|es + fs|] == y'
    decreases |fs|
  {
    hide Allowed, Next, IsInit;
    if fs == [] {
      assert es + fs == es;
      ys' := ys;
    } else {
      var y1 := Next(c, ys[|es|], fs[0]);
      var more, all := ys + [y1], es + [fs[0]];
      forall i | 0 <= i < |all| ensures StepAt(c, more, all, i) {
        if i < |es| {
          assert StepAt(c, ys, es, i);
        }
      }
      ys' := ContinueRun(c, more, all, fs[1..], y');
      assert all + fs[1..] == es + fs;
    }
  }

  // ---------- bringing blocks to a replica ----------

  /** b and everything below it may be delivered, and is at hand. */
  ghost predicate Sound(c: Config, base: Sys, votes: seq<Vote>, b: Block)
    requires c.n >= 1
  {
    b == Genesis || (Admissible(c, votes, b) && LowerParents(b) && AtHand(c, base, b) &&
      forall p | p in b.parents :: Sound(c, base, votes, p))
  }

  lemma {:induction false} SoundMonotone(c: Config, base: Sys, v: seq<Vote>, v': seq<Vote>, b: Block)
    requires c.n >= 1 && v <= v' && Sound(c, base, v, b)
    ensures Sound(c, base, v', b)
  {
    hide Admissible, LowerParents;
    if b != Genesis {
      AdmissibleMonotone(c, v, v', b);
      forall p | p in b.parents ensures Sound(c, base, v', p) {
        SoundMonotone(c, base, v, v', p);
      }
    }
  }

  lemma {:induction false} DeliveredSound(c: Config, base: Sys, votes: seq<Vote>, r: ReplicaId, exec: Block, b: Block)
    requires c.n >= 1 && r in base.cores && StoreOk(c, votes, base.cores[r].storage, exec)
    requires DeliveredIn(base.cores[r].storage, b)
    ensures Sound(c, base, votes, b)
  {
    hide StoreOk, Admissible, Intact, Cleared, Extends, Height, StorageWired;
    BlkOkOf(c, votes, base.cores[r].storage, exec, b);
    if b != Genesis {
      assert LowerParents(b);
      forall p | p in b.parents ensures Sound(c, base, votes, p) {
        assert p in b.Parents();
        DeliveredSound(c, base, votes, r, exec, p);
      }
    }
  }

  lemma BlkOkOf(c: Config, votes: seq<Vote>, st: Storage, exec: Block, b: Block)
    requires c.n >= 1 && StoreOk(c, votes, st, exec) && b in st
    ensures BlkOk(c, votes, st, exec, b)
  {
  }

  /** Only replica r differs, and only in what it has stored. */
  ghost predicate Brought(c: Config, base: Sys, y: Sys, r: ReplicaId, y': Sys) {
    && c.n >= 1 && CanReach(c, base, y, y') && Inv(c, y')
    && r in y.cores && r in y'.cores && y' == y.(cores := y.cores[r := y'.cores[r]])
    && Kept(y.cores[r], y'.cores[r])
  }

  lemma BroughtTransitive(c: Config, base: Sys, y: Sys, r: ReplicaId, y': Sys, y'': Sys)
    requires Brought(c, base, y, r, y') && Brought(c, base, y', r, y'')
    ensures Brought(c, base, y, r, y'')
  {
    hide CanReach, Inv;
    ReachTransitive(c, base, y, y', y'');
  }

  lemma QuietStep(c: Config, base: Sys, y: Sys, e: Event)
    requires Inv(c, y) && Allowed(c, y, e) && Unaided(c, base, e) && Kept(y.cores[e.r], Handle(c, y, e).core)
    ensures Brought(c, base, y, e.r, Next(c, y, e))
    ensures Next(c, y, e).cores[e.r] == Handle(c, y, e).core
  {
    hide Allowed, Handle, Inv, CanReach, CoreInv;
    InvSized(c, y);
    StepInv(c, y, e);
    InvSized(c, Next(c, y, e));
    ReachNext(c, base, y, e);
  }

  /** A block whose parents are delivered is fetched and delivered. */
  lemma FetchAndDeliver(c: Config, base: Sys, y: Sys, r: ReplicaId, b: Block) returns (y': Sys)
    requires Inv(c, y) && r in y.cores && b != Genesis && Sound(c, base, y.votes, b)
    requires !DeliveredIn(y.cores[r].storage, b)
    requires forall p | p in b.parents :: DeliveredIn(y.cores[r].storage, p)
    ensures Brought(c, base, y, r, y') && DeliveredIn(y'.cores[r].storage, b)
  {
    hide CoreInv, VotesOk, CanReach, Wired, Admissible, Inv;
    InvCore(c, y, r);
    var s := y.cores[r];
    var fetch := EvFetch(r, b);
    var s1 := Fetch(s, b);
    assert Handle(c, y, fetch) == Outcome(s1, None);
    FetchKeeps(s, b);
    QuietStep(c, base, y, fetch);
    var y1 := Next(c, y, fetch);
    InvCore(c, y1, r);
    var deliver := EvDeliver(r, b);
    assert Allowed(c, y1, deliver);
    DeliverKeeps(c, y1.votes, s1, b);
    assert Handle(c, y1, deliver) == Deliver(s1, b);
    QuietStep(c, base, y1, deliver);
    y' := Next(c, y1, deliver);
    BroughtTransitive(c, base, y, r, y1, y');
  }

  lemma InvCore(c: Config, y: Sys, r: ReplicaId)
    requires Inv(c, y) && r in y.cores
    ensures c.Valid() && CoreInv(c, y.votes, y.cores[r]) && Wired(y.cores[r]) && y.cores[r].id == r
    ensures VotesOk(c, y.votes)
  {
    InvIsWired(c, y.votes, y.cores[r]);
  }

  lemma FetchKeeps(s: Core, b: Block)
    requires Wired(s) && !DeliveredIn(s.storage, b)
    ensures Kept(s, Fetch(s, b)) && b in Fetch(s, b).storage && !DeliveredIn(Fetch(s, b).storage, b)
    ensures forall p | DeliveredIn(s.storage, p) :: DeliveredIn(Fetch(s, b).storage, p)
  {
  }

  lemma DeliverKeeps(c: Config, votes: seq<Vote>, s: Core, b: Block)
    requires CoreInv(c, votes, s) && Wired(s) && b in s.storage && !s.storage[b].delivered
    requires Admissible(c, votes, b) && forall p | p in b.parents :: DeliveredIn(s.storage, p)
    ensures Kept(s, Deliver(s, b).core) && DeliveredIn(Deliver(s, b).core.storage, b)
  {
    hide CoreInv, StorageWired, StoreOk, CertOk, Deliver;
    InvStore(c, votes, s);
    assert b.parents[0] in b.parents;
    AncestorDelivered(c, votes, s.storage, s.bExec, b.parents[0], b.QcObj());
    NoPipe(c, votes, s);
    DeliverForm(s, b);
  }

  lemma NoPipe(c: Config, votes: seq<Vote>, s: Core)
    requires CoreInv(c, votes, s)
    ensures s.pipedQueue == []
  {
  }

  /** A sound block is brought to replica r, whatever has to be fetched below it first. */
  lemma {:induction false} Bring(c: Config, base: Sys, y: Sys, r: ReplicaId, b: Block) returns (y': Sys)
    requires Inv(c, y) && r in y.cores && Sound(c, base, y.votes, b)
    ensures Brought(c, base, y, r, y') && DeliveredIn(y'.cores[r].storage, b)
    decreases b, 1, 0
  {
    hide Inv, CanReach, Admissible, LowerParents;
    InvCore(c, y, r);
    if DeliveredIn(y.cores[r].storage, b) {
      ReachSelf(c, base, y);
      y' := y;
    } else {
      InvStore(c, y.votes, y.cores[r]);
      GenesisDecided(c, y.votes, y.cores[r].storage, y.cores[r].bExec);
      var y1 := BringParents(c, base, y, r, b, |b.parents|);
      assert forall p | p in b.parents :: DeliveredIn(y1.cores[r].storage, p);
      if DeliveredIn(y1.cores[r].storage, b) {
        y' := y1;
      } else {
        y' := FetchAndDeliver(c, base, y1, r, b);
        BroughtTransitive(c, base, y, r, y1, y');
      }
    }
  }

  lemma {:induction false} BringParents(c: Config, base: Sys, y: Sys, r: ReplicaId, b: Block, k: nat) returns (y': Sys)
    requires Inv(c, y) && r in y.cores && b != Genesis && Sound(c, base, y.votes, b) && k <= |b.parents|
    ensures Brought(c, base, y, r, y') && forall i | 0 <= i < k :: DeliveredIn(y'.cores[r].storage, b.parents[i])
    decreases b, 0, k
  {
    hide Inv, CanReach, Admissible, LowerParents;
    if k == 0 {
      InvCore(c, y, r);
      ReachSelf(c, base, y);
      y' := y;
    } else {
      var y1 := BringParents(c, base, y, r, b, k - 1);
      y' := Bring(c, base, y1, r, b.parents[k - 1]);
      BroughtTransitive(c, base, y, r, y1, y');
    }
  }

  // ---------- one vote ----------

  /** b is acceptable to a replica in state s: above its votes, with a certificate as high as any it holds. */
  predicate Acceptable(s: Core, b: Block) {
    && !s.voteDisabled
    && Height(b) > s.vheight
    && Height(b.QcObj()) >= Height(s.hqc)
  }

  /** What a vote for b leaves: the chain below b's certificate is executed. */
  ghost predicate Voted(build: Build, s: Core, b: Block) {
    && !s.voteDisabled
    && b in s.signed
    && s.vheight == Height(b)
    && Height(s.hqc) <= Height(b.QcObj())
    && forall k | ChainHead(build, b.QcObj(), k) :: Extends(s.bExec, k)
  }

  /** update takes in the certificate and executes what it commits. */
  lemma UpdateExecutes(c: Config, votes: seq<Vote>, s: Core, b: Block)
    requires CoreInv(c, votes, s) && Wired(s) && VotesOk(c, votes) && DeliveredIn(s.storage, b) && b != Genesis
    requires Height(b.QcObj()) >= Height(s.hqc)
    ensures var u := Update(c.build, s, b).core;
      && Height(u.hqc) <= Height(b.QcObj())
      && forall k | ChainHead(c.build, b.QcObj(), k) :: Extends(u.bExec, k)
  {
    hide CoreInv, Update, VotesOk, StorageWired, Extends, ChainHead, Height;
    UpdateEffect(c, votes, s, b);
    var u := Update(c.build, s, b).core;
    forall k | ChainHead(c.build, b.QcObj(), k) ensures Extends(u.bExec, k) {
      ExecutedExtends(c, votes, u, b, k);
    }
  }

  /** After update the lock does not stand in the way. */
  lemma LockAgrees(c: Config, votes: seq<Vote>, s: Core, b: Block)
    requires CoreInv(c, votes, s) && VotesOk(c, votes) && DeliveredIn(s.storage, b) && b != Genesis
    requires Height(s.hqc) <= Height(b.QcObj())
    ensures Height(b.QcObj()) > Height(s.bLock) || Extends(b, s.bLock)
  {
    hide CoreInv, VotesOk, Certified, CertOk, StoreOk;
    InvStore(c, votes, s);
    PointerOrder(c, votes, s);
    QcObjDelivered(c, votes, s.storage, s.bExec, b);
    LockCertified(c, votes, s);
    if Height(b.QcObj()) == Height(s.bLock) {
      CertifiedUnique(c, votes, b.QcObj(), s.bLock);
    }
  }

  lemma LockCertified(c: Config, votes: seq<Vote>, s: Core)
    requires CoreInv(c, votes, s)
    ensures c.Valid() && Certified(c, votes, s.bLock) && DeliveredIn(s.storage, s.bLock)
  {
  }

  /** A replica votes for an acceptable block it is shown. */
  lemma VotesFor(c: Config, votes: seq<Vote>, s: Core, b: Block)
    requires CoreInv(c, votes, s) && Wired(s) && VotesOk(c, votes) && DeliveredIn(s.storage, b) && b != Genesis
    requires Acceptable(s, b)
    ensures Voted(c.build, ReceiveProposal(c.build, s, b).core, b)
    ensures ReceiveProposal(c.build, s, b).core.signed == s.signed + [b]
  {
    hide CoreInv, Update, Opinion, VotesOk, StorageWired, Height, Extends, ChainHead;
    UpdateInv(c, votes, s, b);
    UpdateExecutes(c, votes, s, b);
    var u := Update(c.build, s, b).core;
    assert DeliveredIn(u.storage, b);
    InvStore(c, votes, u);
    PointerOrder(c, votes, u);
    LockAgrees(c, votes, u, b);
    LockCertified(c, votes, u);
    InvHeight(c, votes, u, b);
    OpinionIsVoteRule(c, votes, u, b);
    assert Opinion(u, b) == Some(true);
  }

  // ---------- one round ----------

  ghost predicate Ready(c: Config, y: Sys) {
    Inv(c, y) && forall r | r in y.cores :: !y.cores[r].voteDisabled
  }

  /** The replicas below k have voted for b, the others would. */
  ghost predicate Halfway(c: Config, y: Sys, b: Block, k: nat) {
    forall r | r in y.cores ::
      if r < k then Voted(c.build, y.cores[r], b) && Vote(r, b) in y.votes else Acceptable(y.cores[r], b)
  }

  /** Replica k hears of b and votes for it. */
  lemma OneVotes(c: Config, base: Sys, y: Sys, b: Block, k: nat) returns (y': Sys)
    requires Inv(c, y) && k in y.cores && Sound(c, base, y.votes, b) && b != Genesis && Halfway(c, y, b, k)
    ensures CanReach(c, base, y, y') && Inv(c, y') && y.votes <= y'.votes && Halfway(c, y', b, k + 1)
  {
    hide CoreInv, VotesOk, CanReach, ReceiveProposal, Voted, Inv, Wired, Admissible, LowerParents, Extends, Height;
    var y1 := Bring(c, base, y, k, b);
    InvCore(c, y1, k);
    var e := EvProposal(k, b);
    assert Handle(c, y1, e) == ReceiveProposal(c.build, y1.cores[k], b);
    y' := Next(c, y1, e);
    StepInv(c, y1, e);
    ReachNext(c, base, y1, e);
    ReachTransitive(c, base, y, y1, y');
    VotesFor(c, y1.votes, y1.cores[k], b);
    NoSelfAppend(y1.cores[k].signed, b);
    assert y'.votes == y1.votes + [Vote(k, b)];
    assert y'.votes[|y1.votes|] == Vote(k, b);
    forall r | r in y'.cores ensures
      if r < k + 1 then Voted(c.build, y'.cores[r], b) && Vote(r, b) in y'.votes else Acceptable(y'.cores[r], b)
    {
      if r != k {
        assert y'.cores[r] == y.cores[r];
        if r < k {
          assert Vote(r, b) in y1.votes;
        }
      }
    }
  }

  lemma {:induction false} SomeVote(c: Config, base: Sys, y: Sys, b: Block, k: nat) returns (y': Sys)
    requires Inv(c, y) && Sound(c, base, y.votes, b) && b != Genesis && Halfway(c, y, b, 0)
    ensures CanReach(c, base, y, y') && Inv(c, y') && y.votes <= y'.votes && Halfway(c, y', b, k)
  {
    hide CanReach, Inv, Voted, Acceptable, Sound;
    InvSized(c, y);
    if k == 0 {
      ReachSelf(c, base, y);
      y' := y;
    } else {
      var y1 := SomeVote(c, base, y, b, k - 1);
      if k - 1 in y1.cores {
        SoundMonotone(c, base, y.votes, y1.votes, b);
        y' := OneVotes(c, base, y1, b, k - 1);
        ReachTransitive(c, base, y, y1, y');
      } else {
        y' := y1;
      }
    }
  }

  lemma InvSized(c: Config, y: Sys)
    requires Inv(c, y)
    ensures c.Valid() && forall r :: r in y.cores <==> c.Honest(r)
  {
  }

  /** All rule-following replicas have voted for b. */
  ghost predicate AllVoted(c: Config, y: Sys, b: Block) {
    && Inv(c, y)
    && forall r | r in y.cores :: Voted(c.build, y.cores[r], b) && Vote(r, b) in y.votes
  }

  lemma Round(c: Config, base: Sys, y: Sys, b: Block) returns (y': Sys)
    requires Inv(c, y) && Sound(c, base, y.votes, b) && b != Genesis
    requires forall r | r in y.cores :: Acceptable(y.cores[r], b)
    ensures CanReach(c, base, y, y') && y.votes <= y'.votes && AllVoted(c, y', b)
    ensures Sound(c, base, y'.votes, b)
  {
    hide CanReach, Inv, Voted, Acceptable, Sound;
    InvSized(c, y);
    y' := SomeVote(c, base, y, b, c.n);
    InvSized(c, y');
    SoundMonotone(c, base, y.votes, y'.votes, b);
  }

  // ---------- the next block ----------

  /** An empty block on b with b's own certificate, signed by all who follow the rule. */
  function Successor(c: Config, b: Block): Block {
    Block([b], [], Cert(b, Followers(c)), [])
  }

  lemma NextRound(c: Config, base: Sys, y: Sys, b: Block) returns (y': Sys)
    requires AllVoted(c, y, b) && Sound(c, base, y.votes, b)
    ensures CanReach(c, base, y, y') && y.votes <= y'.votes
    ensures AllVoted(c, y', Successor(c, b)) && Sound(c, base, y'.votes, Successor(c, b))
  {
    hide CanReach, Inv, Sound;
    InvSized(c, y);
    var next := Successor(c, b);
    NextIsSound(c, base, y, b);
    forall r | r in y.cores ensures Acceptable(y.cores[r], next) {
      assert Voted(c.build, y.cores[r], b);
      QcIsLow(c, base, y, r, b);
    }
    y' := Round(c, base, y, next);
  }

  lemma QcIsLow(c: Config, base: Sys, y: Sys, r: ReplicaId, b: Block)
    requires Inv(c, y) && r in y.cores && Sound(c, base, y.votes, b)
    ensures Height(b.QcObj()) <= Height(b)
  {
    hide Inv, CertOk;
    if b != Genesis {
      ExtendsHeight(b.parents[0], b.QcObj());
    }
  }

  lemma NextIsSound(c: Config, base: Sys, y: Sys, b: Block)
    requires AllVoted(c, y, b) && Sound(c, base, y.votes, b)
    ensures c.n >= 1 && Sound(c, base, y.votes, Successor(c, b))
  {
    hide Inv;
    InvSized(c, y);
    FollowersAreQuorum(c);
    var next := Successor(c, b);
    assert CertOk(c, y.votes, next.Qc());
    assert next.parents == [b];
    assert Extends(next.parents[0], next.QcObj());
    assert Admissible(c, y.votes, next);
  }

  // ---------- a block all can accept ----------

  /** A block k + 1 above what qc certifies, which carries qc itself; the blocks in between carry it too. */
  function Tower(qc: Cert, cmds: seq<Command>, k: nat): Block
    decreases k
  {
    Block([if k == 0 then qc.obj else Tower(qc, [], k - 1)], cmds, qc, [])
  }

  lemma {:induction false} TowerIsSound(c: Config, base: Sys, votes: seq<Vote>, qc: Cert, cmds: seq<Command>, k: nat)
    requires c.n >= 1 && CertOk(c, votes, qc) && Sound(c, base, votes, qc.obj)
    requires exists r :: r in base.cores && qc == base.cores[r].hqcCert
    ensures Sound(c, base, votes, Tower(qc, cmds, k))
    ensures Height(Tower(qc, cmds, k)) == Height(qc.obj) + k + 1
    ensures Extends(Tower(qc, cmds, k), qc.obj)
    decreases k
  {
    hide CertOk;
    var b := Tower(qc, cmds, k);
    if k > 0 {
      TowerIsSound(c, base, votes, qc, [], k - 1);
    }
    assert Admissible(c, votes, b);
    assert forall p | p in b.parents :: p == b.parents[0];
  }

  /** A replica that holds the highest certificate of those below k, and a bound on their votes. */
  lemma {:induction false} Highest(c: Config, y: Sys, some: ReplicaId, k: nat) returns (top: ReplicaId, bound: nat)
    requires some in y.cores
    ensures top in y.cores
    ensures forall r | r in y.cores && (r < k || r == some) ::
      Height(y.cores[r].hqc) <= Height(y.cores[top].hqc) && y.cores[r].vheight <= bound
  {
    if k == 0 {
      top, bound := some, y.cores[some].vheight;
    } else {
      top, bound := Highest(c, y, some, k - 1);
      if k - 1 in y.cores {
        if Height(y.cores[k - 1].hqc) > Height(y.cores[top].hqc) {
          top := k - 1;
        }
        if y.cores[k - 1].vheight > bound {
          bound := y.cores[k - 1].vheight;
        }
      }
    }
  }

  lemma SomeFollower(c: Config) returns (r: ReplicaId)
    requires c.Valid()
    ensures c.Honest(r)
  {
    FollowersAreQuorum(c);
    r :| r in Followers(c);
  }

  /** There is a block with the commands cmds that no replica has executed and every replica would vote for. */
  lemma Offer(c: Config, y: Sys, cmds: seq<Command>) returns (b: Block)
    requires Ready(c, y)
    ensures c.n >= 1 && Sound(c, y, y.votes, b) && b != Genesis && b.Cmds() == cmds
    ensures forall r | r in y.cores :: Acceptable(y.cores[r], b) && Height(y.cores[r].bExec) < Height(b)
  {
    hide CoreInv, VotesOk, Sound, CertOk, StoreOk, Height, Extends, Tower;
    InvSized(c, y);
    var some := SomeFollower(c);
    var top, bound := Highest(c, y, some, c.n);
    var qc := y.cores[top].hqcCert;
    InvCore(c, y, top);
    HqcOf(c, y, y.votes, top);
    b := Tower(qc, cmds, bound);
    TowerIsSound(c, y, y.votes, qc, cmds, bound);
    TowerFields(qc, cmds, bound);
    forall r | r in y.cores ensures Acceptable(y.cores[r], b) && Height(y.cores[r].bExec) < Height(b) {
      InvCore(c, y, r);
      PointerOrder(c, y.votes, y.cores[r]);
    }
  }

  lemma HqcOf(c: Config, base: Sys, votes: seq<Vote>, r: ReplicaId)
    requires r in base.cores && CoreInv(c, votes, base.cores[r])
    ensures var s := base.cores[r];
      c.n >= 1 && s.hqcCert.obj == s.hqc && CertOk(c, votes, s.hqcCert) && Sound(c, base, votes, s.hqc)
  {
    hide StoreOk, CertOk, Sound, TailsOk, SignedOk, VoterOk, LogOk;
    var s := base.cores[r];
    DeliveredSound(c, base, votes, r, s.bExec, s.hqc);
  }

  lemma TowerFields(qc: Cert, cmds: seq<Command>, k: nat)
    ensures Tower(qc, cmds, k).QcObj() == qc.obj && Tower(qc, cmds, k).Cmds() == cmds
    ensures Tower(qc, cmds, k) != Genesis
  {
  }

  // ---------- four rounds ----------

  /** Four rounds of votes execute the first block. */
  lemma FourRounds(c: Config, base: Sys, y: Sys, b: Block) returns (y': Sys)
    requires Inv(c, y) && Sound(c, base, y.votes, b) && b != Genesis
    requires forall r | r in y.cores :: Acceptable(y.cores[r], b)
    ensures CanReach(c, base, y, y') && Inv(c, y')
    ensures forall r | r in y'.cores :: Extends(y'.cores[r].bExec, b)
  {
    hide Inv, CanReach, Sound, Acceptable;
    var b2 := Successor(c, b);
    var b3 := Successor(c, b2);
    InvSized(c, y);
    var y1 := Round(c, base, y, b);
    var y2 := NextRound(c, base, y1, b);
    var y3 := NextRound(c, base, y2, b2);
    y' := NextRound(c, base, y3, b3);
    ReachTransitive(c, base, y, y1, y2);
    ReachTransitive(c, base, y, y2, y3);
    ReachTransitive(c, base, y, y3, y');
    var k := if c.build.TwoStep? then b2 else b;
    assert ChainHead(c.build, b3, k);
    forall r | r in y'.cores ensures Extends(y'.cores[r].bExec, b) {
      assert Voted(c.build, y'.cores[r], Successor(c, b3));
      assert Extends(b2, b);
      ExtendsTransitive(y'.cores[r].bExec, k, b);
    }
  }

  /** Whatever has happened in a run, with any behaviour of the faulty replicas, there are blocks, carrying only
    * certificates at hand, that the vote rule makes all the others vote for and execute, the first of them with any
    * commands one likes.  This holds in both builds.  Whether anyone can propose such blocks is another matter. */
  lemma VoteRuleAdmits(c: Config, ys: seq<Sys>, es: seq<Event>, cmds: seq<Command>)
    returns (ys': seq<Sys>, es': seq<Event>, b: Block)
    requires c.Valid() && IsRun(c, ys, es)
    requires forall r | r in ys[|es|].cores :: !ys[|es|].cores[r].voteDisabled
    ensures IsRun(c, ys', es') && ys <= ys' && es <= es'
    ensures forall e | e in es'[|es|..] :: Unaided(c, ys[|es|], e)
    ensures b.Cmds() == cmds
    ensures forall r | c.Honest(r) :: r in ys[|es|].cores && b !in ys[|es|].cores[r].log
    ensures forall r | c.Honest(r) :: r in ys'[|es'|].cores && b in ys'[|es'|].cores[r].log
  {
    hide Inv, CoreInv, VotesOk, IsRun, Sound, Leads, Unaided;
    var y := LastOf(c, ys, es);
    b := Offer(c, y, cmds);
    var y' := FourRounds(c, y, y, b);
    var fs :| Leads(c, y, fs, y') && forall e | e in fs :: Unaided(c, y, e);
    es' := es + fs;
    assert es'[|es|..] == fs;
    ys' := ContinueRun(c, ys, es, fs, y');
    InvSized(c, y);
    InvSized(c, y');
    forall r | c.Honest(r) ensures b !in y.cores[r].log && b in y'.cores[r].log {
      InvCore(c, y, r);
      InvCore(c, y', r);
      Executes(c, y.votes, y.cores[r], b);
      Executes(c, y'.votes, y'.cores[r], b);
      if Extends(y.cores[r].bExec, b) {
        ExtendsHeight(y.cores[r].bExec, b);
      }
    }
  }

  lemma LastOf(c: Config, ys: seq<Sys>, es: seq<Event>) returns (y: Sys)
    requires c.Valid() && IsRun(c, ys, es)
    ensures |ys| == |es| + 1 && y == ys[|es|] && Inv(c, y)
  {
    y := ys[|es|];
    RunInv(c, ys, es, |es|);
  }
}
