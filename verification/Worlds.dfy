/** The system together with every replica's parent selection, and how it can go on without the replicas that do
  * not follow the rule: new blocks come only from on_propose on the proposer's own hqc_tail. */
module Worlds {
  import opened Blocks
  import opened Votes
  import opened ConsensusCore
  import opened Invariant
  import opened Preservation
  import opened Handlers
  import opened Agreement
  import opened PaceMaker
  import opened Effects

  /** What PMWaitQC goes by: the block the replica proposed last, and the blocks whose certificate has reached it, in
    * a proposal that carries it or complete from votes and relays. */
  datatype Beat = Beat(last: Block, finished: set<Block>)

  /** The rule-following replicas, the votes they have cast, the block each of them proposes on, and what its beats
    * wait for. */
  datatype World = World(sys: Sys, tails: map<ReplicaId, Block>, beats: map<ReplicaId, Beat>) {
    predicate Has(r: ReplicaId) {
      r in sys.cores && r in tails && r in beats
    }

    function At(r: ReplicaId): Core
      requires r in sys.cores
    {
      sys.cores[r]
    }
  }

  /** The certificate s collects for b itself is complete. */
  predicate Complete(s: Core, b: Block) {
    b in s.storage && s.storage[b].selfQc.Some? && |s.storage[b].selfQc.value.signers| >= s.nmajority
  }

  /** async_qc_finish resolves for the last proposal of r: its certificate has reached r, or r has completed it. */
  predicate WaitOver(w: World, r: ReplicaId)
    requires w.Has(r)
  {
    w.beats[r].last in w.beats[r].finished || Complete(w.At(r), w.beats[r].last)
  }

  /** How one event at the replica itself changes that: a proposal made, a certificate received or completed. */
  ghost function BeatAfter(c: Config, y: Sys, e: Event, beat: Beat): Beat
    requires c.n >= 1 && Allowed(c, y, e)
  {
    var s, o := y.cores[e.r], Handle(c, y, e);
    match e
    case EvPropose(_, cmds, parents, extra, _) =>
      if o.error.None? then beat.(last := ProposedBlock(s, cmds, parents, extra)) else beat
    case EvProposal(_, b) =>
      if o.error.None? && s.storage[b].qcRef.Some? then beat.(finished := beat.finished + {b.QcObj()}) else beat
    case EvCertificate(_, b, _) => beat.(finished := beat.finished + {b})
    case _ => beat
  }

  /** The last proposal has been signed, and finished blocks have been delivered. */
  ghost predicate BeatOk(s: Core, beat: Beat) {
    && (beat.last == Genesis || beat.last in s.signed)
    && Genesis in beat.finished
    && forall b | b in beat.finished :: DeliveredIn(s.storage, b)
  }

  ghost predicate WorldInv(c: Config, w: World) {
    && Inv(c, w.sys)
    && w.tails.Keys == w.beats.Keys == w.sys.cores.Keys
    && forall r | w.Has(r) :: TailOk(w.At(r), w.tails[r]) && BeatOk(w.At(r), w.beats[r])
  }

  /** e takes w to w': a proposal is made on the proposer's hqc_tail. */
  ghost predicate WorldStep(c: Config, w: World, e: Event, w': World)
    requires c.n >= 1
  {
    && w.Has(e.r) && w'.Has(e.r)
    && (e.EvPropose? ==> e.parents == [w.tails[e.r]])
    && Allowed(c, w.sys, e)
    && w'.sys == Next(c, w.sys, e)
    && w'.tails == w.tails[e.r := w'.tails[e.r]]
    && TailStep(c, w.sys, e, w.tails[e.r], w'.tails[e.r])
    && w'.beats == w.beats[e.r := BeatAfter(c, w.sys, e, w.beats[e.r])]
  }

  lemma BeatStepOk(c: Config, w: World, e: Event, w': World)
    requires WorldInv(c, w) && c.n >= 1 && WorldStep(c, w, e, w')
    ensures BeatOk(Handle(c, w.sys, e).core, w'.beats[e.r])
  {
    hide WorldInv, CoreInv, VotesOk, Wired, TailStep, CertOk, Admissible, BeatOk;
    BeatParts(c, w, e.r);
    var s, votes, beat := w.At(e.r), w.sys.votes, w.beats[e.r];
    match e {
      case EvFetch(_, b) =>
        FetchEffect(s, b);
        BeatGrows(s, Fetch(s, b), beat);
      case EvDeliver(_, b) =>
        DeliverEffect(s, b);
        BeatGrows(s, Deliver(s, b).core, beat);
      case EvProposal(_, b) => ProposalBeat(c, votes, s, b, beat);
      case EvPropose(_, cmds, parents, extra, full) => ProposeBeat(c, votes, s, cmds, parents[0], extra, full, beat);
      case EvVote(_, b, voter, full) =>
        ReceiveVoteInv(c, votes, s, b, voter, full);
        BeatGrows(s, ReceiveVote(s, b, voter, full).core, beat);
      case EvCertificate(_, b, qc) => CertificateBeat(s, b, qc, beat);
      case EvPrune(_, staleness) =>
        Pruning.PruneInv(c, votes, s, staleness);
        BeatGrows(s, Pruning.Prune(s, staleness), beat);
    }
  }

  lemma BeatParts(c: Config, w: World, r: ReplicaId)
    requires WorldInv(c, w) && w.Has(r)
    ensures c.Valid() && CoreInv(c, w.sys.votes, w.At(r)) && Wired(w.At(r)) && VotesOk(c, w.sys.votes)
    ensures w.At(r).id == r && TailOk(w.At(r), w.tails[r]) && BeatOk(w.At(r), w.beats[r])
  {
    InvIsWired(c, w.sys.votes, w.At(r));
  }

  lemma BeatGrows(s: Core, s': Core, beat: Beat)
    requires BeatOk(s, beat) && Grows(s.storage, s'.storage) && s.signed <= s'.signed
    ensures BeatOk(s', beat)
  {
  }

  lemma ProposalBeat(c: Config, votes: seq<Vote>, s: Core, b: Block, beat: Beat)
    requires CoreInv(c, votes, s) && Wired(s) && VotesOk(c, votes) && b in s.storage && BeatOk(s, beat)
    ensures var o := ReceiveProposal(c.build, s, b);
      && BeatOk(o.core, beat)
      && (o.error.None? ==> BeatOk(o.core, beat.(finished := beat.finished + {b.QcObj()})))
  {
    hide CoreInv, VotesOk, Wired, StoreOk, Shown, ReceiveProposal, Certified, CertOk;
    if s.storage[b].delivered {
      InvStore(c, votes, s);
      QcObjDelivered(c, votes, s.storage, s.bExec, b);
      ProposalGrows(c, votes, s, b);
    } else {
      UndeliveredProposal(c.build, s, b);
      NotDeliveredThrows(c.build, s, b);
    }
  }

  lemma NotDeliveredThrows(build: Build, s: Core, b: Block)
    requires Wired(s) && b in s.storage && !s.storage[b].delivered
    ensures ReceiveProposal(build, s, b).error.Some?
  {
  }

  lemma ProposalGrows(c: Config, votes: seq<Vote>, s: Core, b: Block)
    requires CoreInv(c, votes, s) && Wired(s) && VotesOk(c, votes) && DeliveredIn(s.storage, b)
    ensures var s' := ReceiveProposal(c.build, s, b).core;
      Grows(s.storage, s'.storage) && s.signed <= s'.signed
  {
    hide Update, Opinion, CoreInv, VotesOk, Wired;
    UpdateInv(c, votes, s, b);
  }

  lemma ProposeBeat(c: Config, votes: seq<Vote>, s: Core, cmds: seq<Command>, t: Block, extra: seq<nat>, full: bool,
                    beat: Beat)
    requires CoreInv(c, votes, s) && Wired(s) && VotesOk(c, votes) && DeliveredIn(s.storage, t) && Extends(t, s.hqc)
    requires BeatOk(s, beat) && s.hqcCert.obj == s.hqc
    ensures var o := Propose(c.build, s, cmds, [t], extra, full);
      && BeatOk(o.core, beat)
      && (o.error.None? ==> BeatOk(o.core, beat.(last := ProposedBlock(s, cmds, [t], extra))))
  {
    hide CoreInv, VotesOk, Wired, Propose, CertsKept, Grows, DeliversOnly, Height, Executed, LockTarget;
    ProposeEffect(c, votes, s, cmds, t, extra, full);
    NewBlockIs(s, cmds, t, extra);
    BeatGrows(s, Propose(c.build, s, cmds, [t], extra, full).core, beat);
  }

  lemma CertificateBeat(s: Core, b: Block, qc: Cert, beat: Beat)
    requires Wired(s) && DeliveredIn(s.storage, b) && BeatOk(s, beat)
    ensures BeatOk(UpdateHqc(s, b, qc), beat.(finished := beat.finished + {b}))
  {
  }

  lemma WorldStepInv(c: Config, w: World, e: Event, w': World)
    requires WorldInv(c, w) && c.n >= 1 && WorldStep(c, w, e, w')
    ensures WorldInv(c, w')
    ensures w'.At(e.r) == Handle(c, w.sys, e).core
    ensures w'.sys.cores == w.sys.cores[e.r := w'.At(e.r)]
    ensures w'.sys.votes == VotesAfter(w.sys.votes, w.At(e.r), w'.At(e.r))
  {
    hide Inv, Allowed, Handle, TailStep, TailOk, BeatAfter, BeatOk;
    StepInv(c, w.sys, e);
    TailStepOk(c, w.sys, e, w.tails[e.r], w'.tails[e.r]);
    BeatStepOk(c, w, e, w');
  }

  // ---------- runs ----------

  ghost predicate WorldStepAt(c: Config, ws: seq<World>, es: seq<Event>, i: nat)
    requires c.n >= 1 && |ws| == |es| + 1 && i < |es|
  {
    WorldStep(c, ws[i], es[i], ws[i + 1])
  }

  ghost predicate IsWorldInit(c: Config, w: World)
    requires c.n >= 1
  {
    && IsInit(c, w.sys) && w.tails.Keys == w.beats.Keys == w.sys.cores.Keys
    && forall r | w.Has(r) :: w.tails[r] == Genesis && w.beats[r] == Beat(Genesis, {Genesis})
  }

  /** A run in which every proposal is made on the proposer's hqc_tail. */
  ghost predicate IsWorldRun(c: Config, ws: seq<World>, es: seq<Event>)
    requires c.n >= 1
  {
    && |ws| == |es| + 1
    && IsWorldInit(c, ws[0])
    && forall i {:trigger WorldStepAt(c, ws, es, i)} | 0 <= i < |es| :: WorldStepAt(c, ws, es, i)
  }

  lemma {:induction false} WorldRunInv(c: Config, ws: seq<World>, es: seq<Event>, i: nat)
    requires c.Valid() && IsWorldRun(c, ws, es) && i < |ws|
    ensures WorldInv(c, ws[i])
  {
    hide Inv, WorldStep;
    if i == 0 {
      InitInv(c, ws[0].sys);
      forall r | ws[0].Has(r)
        ensures TailOk(ws[0].At(r), ws[0].tails[r]) && BeatOk(ws[0].At(r), ws[0].beats[r])
      {
        assert ws[0].At(r) == ConsensusCore.Init(r, c.NMajority(), c.Replicas(), ws[0].At(r).voteDisabled);
      }
    } else {
      WorldRunInv(c, ws, es, i - 1);
      assert WorldStepAt(c, ws, es, i - 1);
      WorldStepInv(c, ws[i - 1], es[i - 1], ws[i]);
    }
  }

  function Systems(ws: seq<World>): seq<Sys> {
    seq(|ws|, i requires 0 <= i < |ws| => ws[i].sys)
  }

  /** Such a run is a run, so what is proved of all runs holds of it. */
  lemma WorldRunIsRun(c: Config, ws: seq<World>, es: seq<Event>)
    requires c.n >= 1 && IsWorldRun(c, ws, es)
    ensures IsRun(c, Systems(ws), es)
  {
    hide IsInit, Allowed, Next, TailStep, BeatAfter;
    var ys := Systems(ws);
    forall i | 0 <= i < |es| ensures StepAt(c, ys, es, i) {
      assert WorldStepAt(c, ws, es, i);
    }
  }

  /** In such a run too, the logs of any two rule-following replicas are prefixes of one another at any two moments. */
  lemma WorldLogsAgree(c: Config, ws: seq<World>, es: seq<Event>, i: nat, j: nat, p: ReplicaId, q: ReplicaId)
    requires c.Valid() && IsWorldRun(c, ws, es) && i <= j < |ws| && c.Honest(p) && c.Honest(q)
    ensures p in ws[i].sys.cores && q in ws[j].sys.cores
    ensures Comparable(ws[i].At(p).log, ws[j].At(q).log)
  {
    hide IsWorldRun;
    WorldRunIsRun(c, ws, es);
    LogsAgree(c, Systems(ws), es, i, j, p, q);
  }

  lemma ExtendRun(c: Config, ws: seq<World>, es: seq<Event>, e: Event, w': World)
    requires c.n >= 1 && IsWorldRun(c, ws, es) && WorldStep(c, ws[|es|], e, w')
    ensures IsWorldRun(c, ws + [w'], es + [e])
  {
    hide WorldStep, IsWorldInit;
    var more, all := ws + [w'], es + [e];
    forall i | 0 <= i < |all| ensures WorldStepAt(c, more, all, i) {
      if i < |es| {
        assert WorldStepAt(c, ws, es, i);
      }
    }
  }

  // ---------- going on without the others ----------

  /** What the rule-following replicas have at base, the leaders who may propose from there on, and whether a leader
    * waits for the certificate of its last block, made before or after base, before it proposes the next, as PMWaitQC
    * does. */
  datatype Setup = Setup(c: Config, base: World, leaders: set<ReplicaId>, waits: bool) {
    ghost predicate Valid() {
      c.Valid() && c.n >= 2 && WorldInv(c, base) && leaders <= base.sys.cores.Keys
    }
  }

  /** No rule-following replica knows b at base. */
  predicate New(base: World, b: Block) {
    forall p | p in base.sys.cores :: b !in base.At(p).storage && b !in base.At(p).signed
  }

  /** Some rule-following replica has delivered b at base. */
  ghost predicate Old(base: World, b: Block) {
    exists p :: p in base.sys.cores && DeliveredIn(base.At(p).storage, b)
  }

  /** The events that need nothing from the faulty replicas after base.  What a replica stores another may fetch; new
    * blocks are made by leaders, and shown to others once they are signed; certificates are made of the votes of
    * rule-following replicas for them.  Proposals and votes of before base have arrived or are lost.  A replica's
    * own vote is counted when it is cast. */
  ghost predicate Unaided(x: Setup, w: World, e: Event) {
    match e
    case EvFetch(_, b) => exists p :: p in w.sys.cores && b in w.At(p).storage
    case EvDeliver(_, _) => true
    case EvProposal(_, b) => New(x.base, b) && exists p :: p in w.sys.cores && b in w.At(p).signed
    case EvPropose(r, cmds, parents, extra, _) =>
      && r in x.leaders && w.Has(r)
      && New(x.base, NewBlock(w.At(r), cmds, parents, extra))
      && (x.waits ==> WaitOver(w, r))
    case EvVote(r, _, voter, _) => voter != r
    case EvCertificate(_, b, qc) => New(x.base, b) && qc.signers <= Followers(x.c)
    case EvPrune(_, _) => false
  }

  /** k such steps lead from base to w. */
  ghost predicate ReachedIn(x: Setup, w: World, k: nat)
    requires x.c.n >= 1
    decreases k
  {
    if k == 0 then w == x.base
    else exists w0, e :: ReachedIn(x, w0, k - 1) && Unaided(x, w0, e) && WorldStep(x.c, w0, e, w)
  }

  ghost predicate Reached(x: Setup, w: World)
    requires x.c.n >= 1
  {
    exists k: nat :: ReachedIn(x, w, k)
  }

  lemma ReachedBase(x: Setup)
    requires x.c.n >= 1
    ensures Reached(x, x.base)
  {
    assert ReachedIn(x, x.base, 0);
  }

  lemma ReachedNext(x: Setup, w: World, e: Event, w': World)
    requires x.c.n >= 1 && Reached(x, w) && Unaided(x, w, e) && WorldStep(x.c, w, e, w')
    ensures Reached(x, w')
  {
    hide Unaided, WorldStep;
    var k: nat :| ReachedIn(x, w, k);
    assert ReachedIn(x, w', k + 1);
  }

  /** What is reached from the end of a run ends a longer run. */
  lemma {:induction false} ReachedContinues(x: Setup, ws: seq<World>, es: seq<Event>, w: World, k: nat)
    returns (ws': seq<World>, es': seq<Event>)
    requires x.c.n >= 1 && IsWorldRun(x.c, ws, es) && x.base == ws[|es|] && ReachedIn(x, w, k)
    ensures IsWorldRun(x.c, ws', es') && ws <= ws' && es <= es' && ws'[|es'|] == w
    decreases k
  {
    hide Unaided, WorldStep, IsWorldRun;
    RunLength(x.c, ws, es);
    if k == 0 {
      ws', es' := ws, es;
    } else {
      var w0, e :| ReachedIn(x, w0, k - 1) && Unaided(x, w0, e) && WorldStep(x.c, w0, e, w);
      var ws1, es1 := ReachedContinues(x, ws, es, w0, k - 1);
      RunLength(x.c, ws1, es1);
      ExtendRun(x.c, ws1, es1, e, w);
      ws', es' := ws1 + [w], es1 + [e];
    }
  }

  lemma RunLength(c: Config, ws: seq<World>, es: seq<Event>)
    requires c.n >= 1 && IsWorldRun(c, ws, es)
    ensures |ws| == |es| + 1
  {
  }

  // ---------- what every unaided step keeps ----------

  /** The certificates s collects for new blocks hold its own signature at most. */
  predicate OwnCerts(base: World, s: Core) {
    forall b | b in s.storage && New(base, b) && s.storage[b].selfQc.Some? ::
      s.storage[b].selfQc.value.signers <= {s.id}
  }

  ghost predicate ReachInv(x: Setup, w: World) {
    && x.Valid() && WorldInv(x.c, w)
    && w.sys.cores.Keys == x.base.sys.cores.Keys
    && forall r | r in w.sys.cores :: OwnCerts(x.base, w.At(r))
  }

  lemma WorldCore(c: Config, w: World, r: ReplicaId)
    requires WorldInv(c, w) && r in w.sys.cores
    ensures c.Valid() && CoreInv(c, w.sys.votes, w.At(r)) && Wired(w.At(r)) && VotesOk(c, w.sys.votes)
    ensures w.At(r).id == r && w.Has(r) && TailOk(w.At(r), w.tails[r]) && c.Honest(r) && BeatOk(w.At(r), w.beats[r])
    ensures w.At(r).nmajority == c.NMajority()
  {
    assert w.Has(r);
    InvIsWired(c, w.sys.votes, w.At(r));
  }

  lemma GenesisIsOld(x: Setup, r: ReplicaId)
    requires x.Valid() && r in x.base.sys.cores
    ensures !New(x.base, Genesis) && Old(x.base, Genesis)
  {
    hide CoreInv, StoreOk, VotesOk, WorldInv, Wired;
    WorldCore(x.c, x.base, r);
    InvStore(x.c, x.base.sys.votes, x.base.At(r));
    GenesisDecided(x.c, x.base.sys.votes, x.base.At(r).storage, x.base.At(r).bExec);
  }

  lemma OldIsKnown(base: World, b: Block)
    requires Old(base, b)
    ensures !New(base, b)
  {
    var p :| p in base.sys.cores && DeliveredIn(base.At(p).storage, b);
  }

  /** What is below a block delivered at base was delivered there too. */
  lemma OldBelow(x: Setup, b: Block, a: Block)
    requires x.Valid() && Old(x.base, b) && (Extends(b, a) || a == b.QcObj())
    ensures Old(x.base, a)
  {
    hide CoreInv, StoreOk, VotesOk, WorldInv, Wired, Certified, CertOk;
    var p :| p in x.base.sys.cores && DeliveredIn(x.base.At(p).storage, b);
    WorldCore(x.c, x.base, p);
    var s, votes := x.base.At(p), x.base.sys.votes;
    InvStore(x.c, votes, s);
    if Extends(b, a) {
      AncestorDelivered(x.c, votes, s.storage, s.bExec, b, a);
    } else {
      QcObjDelivered(x.c, votes, s.storage, s.bExec, b);
    }
  }

  /** Fetching, delivering and counting others' votes change only what is stored. */
  lemma QuietEffect(x: Setup, w: World, e: Event, w': World)
    requires ReachInv(x, w) && Unaided(x, w, e) && WorldStep(x.c, w, e, w')
    requires e.EvFetch? || e.EvDeliver? || e.EvVote? || (e.EvProposal? && !DeliveredIn(w.At(e.r).storage, e.b))
    ensures w'.Has(e.r) && Kept(w.At(e.r), w'.At(e.r)) && w'.sys.votes == w.sys.votes
    ensures w'.tails == w.tails && w'.beats == w.beats
    ensures w'.sys.cores == w.sys.cores[e.r := w'.At(e.r)]
    ensures Gains(w.At(e.r).storage, w'.At(e.r).storage, e.b)
  {
    hide CoreInv, WorldInv, VotesOk, Fetch, Deliver, ReceiveVote, ReceiveProposal, StorageWired, Gains, AfterHqc;
    WorldStepInv(x.c, w, e, w');
    WorldCore(x.c, w, e.r);
    var s := w.At(e.r);
    match e {
      case EvFetch(_, b) => FetchEffect(s, b);
      case EvDeliver(_, b) => DeliverEffect(s, b);
      case EvVote(_, b, voter, full) =>
        VoteEffect(s, b, voter, full);
        assert ReceiveVote(s, b, voter, full).core.hqc == s.hqc;
        assert AfterHqc(s, ReceiveVote(s, b, voter, full).core, w.tails[e.r], w'.tails[e.r]);
        SameTailAfter(s, ReceiveVote(s, b, voter, full).core, w.tails[e.r], w'.tails[e.r]);
      case EvProposal(_, b) =>
        UndeliveredProposal(x.c.build, s, b);
        NotDeliveredThrows(x.c.build, s, b);
        SameGains(s.storage, b);
    }
  }

  lemma SameTailAfter(s: Core, m: Core, t: Block, t': Block)
    requires Wired(m) && AfterHqc(s, m, t, t') && m.hqc == s.hqc
    ensures t' == t
  {
  }

  /** Showing b to a replica: its vote, and its tail if the certificate is not news. */
  lemma ShownEffect(x: Setup, w: World, e: Event, w': World)
    requires ReachInv(x, w) && Unaided(x, w, e) && WorldStep(x.c, w, e, w')
    requires e.EvProposal? && DeliveredIn(w.At(e.r).storage, e.b)
    ensures w'.Has(e.r) && Shown(x.c.build, w.At(e.r), w'.At(e.r), e.b)
    ensures w'.sys.cores == w.sys.cores[e.r := w'.At(e.r)]
    ensures w'.tails == w.tails[e.r := w'.tails[e.r]]
    ensures w'.beats == w.beats[e.r := w'.beats[e.r]] && w'.beats[e.r].last == w.beats[e.r].last
    ensures w'.beats[e.r].finished <= w.beats[e.r].finished + {e.b.QcObj()}
    ensures Gains(w.At(e.r).storage, w'.At(e.r).storage, e.b)
    ensures w'.At(e.r).hqc == w.At(e.r).hqc ==> w'.tails[e.r] == w.tails[e.r] || w'.tails[e.r] == e.b
  {
    hide CoreInv, WorldInv, VotesOk, ReceiveProposal, StorageWired, Gains, AfterUpdate, AfterProposal, Shown, New;
    WorldStepInv(x.c, w, e, w');
    WorldCore(x.c, w, e.r);
    GenesisIsOld(x, e.r);
    var s, b, s' := w.At(e.r), e.b, w'.At(e.r);
    ProposalEffect(x.c, w.sys.votes, s, b);
    if s'.hqc == s.hqc {
      var t1 :| AfterUpdate(s, b, w.tails[e.r], t1) && t1 in s'.storage && w'.tails[e.r] == AfterProposal(s', b, t1);
      UpdateKeepsTail(x.c, w.sys.votes, s, b, w.tails[e.r], t1);
      AfterProposalIs(s', b, t1);
    }
  }

  lemma AfterProposalIs(s: Core, b: Block, t: Block)
    requires Wired(s) && b in s.storage && t in s.storage
    ensures AfterProposal(s, b, t) in {t, b}
  {
  }

  lemma UpdateKeepsTail(c: Config, votes: seq<Vote>, s: Core, b: Block, t: Block, t1: Block)
    requires CoreInv(c, votes, s) && Wired(s) && VotesOk(c, votes) && DeliveredIn(s.storage, b)
    requires AfterUpdate(s, b, t, t1) && ReceiveProposal(c.build, s, b).core.hqc == s.hqc
    ensures t1 == t
  {
    hide CoreInv, VotesOk, ReceiveProposal, Update, UpdateHqc, Tallest, StorageWired;
    UpdateTakesHqc(c.build, s, b);
    ProposalKeepsStore(c, votes, s, b);
  }

  /** Proposing throws exactly if the tail is too low; otherwise the new block is signed and becomes the tail. */
  lemma ProposedEffect(x: Setup, w: World, e: Event, w': World)
    requires ReachInv(x, w) && Unaided(x, w, e) && WorldStep(x.c, w, e, w') && e.EvPropose?
    ensures w'.Has(e.r)
    ensures w'.sys.cores == w.sys.cores[e.r := w'.At(e.r)]
    ensures w'.tails == w.tails[e.r := w'.tails[e.r]]
    ensures var s, s', t := w.At(e.r), w'.At(e.r), w.tails[e.r];
      var b := NewBlock(s, e.cmds, [t], e.extra);
      && Height(b) == Height(t) + 1 && b.QcObj() == s.hqc && New(x.base, b) && b.Cmds() == e.cmds
      && Proposed(x.c.build, s, s', b)
      && s'.hqc == s.hqc && s'.hqcCert == s.hqcCert
      && (s'.vheight, s'.signed, w'.tails[e.r]) ==
         (if Height(t) + 1 <= s.vheight then (s.vheight, s.signed, t) else (Height(b), s.signed + [b], b))
      && w'.beats == w.beats[e.r :=
           if Height(t) + 1 <= s.vheight then w.beats[e.r] else w.beats[e.r].(last := b)]
      && s'.storage[b].selfQc.value.signers <= {e.r}
  {
    hide CoreInv, WorldInv, VotesOk, Propose, StorageWired, CertsKept, Grows, NewBlock, New;
    WorldStepInv(x.c, w, e, w');
    WorldCore(x.c, w, e.r);
    var s, t := w.At(e.r), w.tails[e.r];
    var b := NewBlock(s, e.cmds, [t], e.extra);
    ProposeEffect(x.c, w.sys.votes, s, e.cmds, t, e.extra, e.carriedFull);
    NewBlockIs(s, e.cmds, t, e.extra);
    assert Collected(s, b).signers + {e.r} <= {e.r};
    assert Collected(s, b).signers + {e.r} == {e.r};
    assert |{e.r}| == 1;
  }

  lemma NewBlockIs(s: Core, cmds: seq<Command>, t: Block, extra: seq<nat>)
    ensures NewBlock(s, cmds, [t], extra) == ProposedBlock(s, cmds, [t], extra)
    ensures NewBlock(s, cmds, [t], extra).Cmds() == cmds
  {
  }

  lemma GainsOwnCerts(base: World, s: Core, s': Core, b: Block)
    requires OwnCerts(base, s) && Gains(s.storage, s'.storage, b) && s'.id == s.id && !New(base, Genesis)
    ensures OwnCerts(base, s')
  {
    hide New;
  }

  lemma StepOwnCerts(x: Setup, w: World, e: Event, w': World)
    requires ReachInv(x, w) && Unaided(x, w, e) && WorldStep(x.c, w, e, w')
    ensures e.r in w.sys.cores && e.r in w'.sys.cores && OwnCerts(x.base, w'.At(e.r))
  {
    hide WorldInv, New, Gains, WorldStep, Kept, Shown, Proposed, Unaided, OwnCerts, CoreInv, VotesOk, Wired, BeatOk,
         TailOk;
    HasActor(x, w, e, w');
    WorldStepInv(x.c, w, e, w');
    GenesisIsOld(x, e.r);
    WorldCore(x.c, w, e.r);
    WorldCore(x.c, w', e.r);
    var s, s' := w.At(e.r), w'.At(e.r);
    if e.EvProposal? && DeliveredIn(s.storage, e.b) {
      ShownEffect(x, w, e, w');
      GainsOwnCerts(x.base, s, s', e.b);
    } else if e.EvPropose? {
      ProposedEffect(x, w, e, w');
      ProposedOwnCerts(x, s, s', NewBlock(s, e.cmds, [w.tails[e.r]], e.extra));
    } else if e.EvCertificate? {
      CertificateKeeps(x, w, e, w');
    } else {
      OtherEvents(x, w, e);
      QuietEffect(x, w, e, w');
      GainsOwnCerts(x.base, s, s', e.b);
    }
  }

  lemma ReachStep(x: Setup, w: World, e: Event, w': World)
    requires ReachInv(x, w) && Unaided(x, w, e) && WorldStep(x.c, w, e, w')
    ensures ReachInv(x, w')
    ensures w'.sys.cores == w.sys.cores[e.r := w'.At(e.r)] && w.sys.votes <= w'.sys.votes
  {
    hide WorldInv, WorldStep, Unaided, OwnCerts;
    HasActor(x, w, e, w');
    WorldStepInv(x.c, w, e, w');
    StepOwnCerts(x, w, e, w');
  }

  lemma HasActor(x: Setup, w: World, e: Event, w': World)
    requires x.c.n >= 1 && WorldStep(x.c, w, e, w')
    ensures w.Has(e.r) && w'.Has(e.r)
  {
  }

  lemma OtherEvents(x: Setup, w: World, e: Event)
    requires Unaided(x, w, e) && !e.EvPropose? && !e.EvCertificate?
    ensures e.EvFetch? || e.EvDeliver? || e.EvVote? || e.EvProposal?
  {
  }

  lemma CertificateKeeps(x: Setup, w: World, e: Event, w': World)
    requires ReachInv(x, w) && Unaided(x, w, e) && WorldStep(x.c, w, e, w') && e.EvCertificate?
    ensures w'.At(e.r) == UpdateHqc(w.At(e.r), e.b, e.qc)
    ensures w'.At(e.r).storage == w.At(e.r).storage && OwnCerts(x.base, w'.At(e.r))
    ensures w'.sys.votes == w.sys.votes
  {
    hide WorldInv, New, CoreInv, VotesOk;
    WorldStepInv(x.c, w, e, w');
  }

  lemma ProposedOwnCerts(x: Setup, s: Core, s': Core, b: Block)
    requires OwnCerts(x.base, s) && Proposed(x.c.build, s, s', b) && s'.id == s.id
    requires s'.storage[b].selfQc.value.signers <= {s.id}
    ensures OwnCerts(x.base, s')
  {
    hide New;
  }

  lemma BaseReachInv(x: Setup)
    requires x.Valid()
    ensures ReachInv(x, x.base)
  {
  }

  /** The replicas whose state is described, and what is collected, along the whole continuation. */
  lemma {:induction false} ReachedInv(x: Setup, w: World, k: nat)
    requires x.Valid() && ReachedIn(x, w, k)
    ensures ReachInv(x, w)
    decreases k
  {
    hide ReachInv, Unaided, WorldStep, WorldInv;
    if k == 0 {
      BaseReachInv(x);
    } else {
      var w0, e :| ReachedIn(x, w0, k - 1) && Unaided(x, w0, e) && WorldStep(x.c, w0, e, w);
      ReachedInv(x, w0, k - 1);
      ReachStep(x, w0, e, w);
    }
  }
}
