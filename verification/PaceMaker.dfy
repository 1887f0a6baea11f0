/** Parent selection: PMHighTail keeps the block to propose on, and that block always extends
  * the highest certified one, which is what proposing safely needs. */
module PaceMaker {
  import opened Blocks
  import opened Votes
  import opened ConsensusCore
  import opened Invariant
  import opened Preservation
  import opened Handlers
  import opened Agreement
  import opened Replica

  // ---------- the object ----------

  /** The height-guided test whether b extends a; None stands for a read of a cleared parent list. */
  function Ancestry(st: Storage, a: Block, b: Block): Option<bool>
    requires StorageWired(st) && a in st && b in st
  {
    match WalkDown(st, b, st[a].height)
    case None => None
    case Some(x) => Some(x == a)
  }

  /** A tail that the scan after a certificate update may pick up. */
  predicate Candidate(s: Core, x: Block)
    requires StorageWired(s.storage) && s.hqc in s.storage
  {
    x in s.tails && x in s.storage && Ancestry(s.storage, s.hqc, x) == Some(true)
  }

  /** t is the highest certified block, or a higher candidate, and no candidate is higher. */
  predicate Tallest(s: Core, t: Block)
    requires StorageWired(s.storage) && s.hqc in s.storage
  {
    && (t == s.hqc || (Candidate(s, t) && s.storage[t].height > s.storage[s.hqc].height))
    && t in s.storage
    && (forall x | x in s.tails && Candidate(s, x) :: s.storage[x].height <= s.storage[t].height)
  }

  class PMHighTail {
    const hsc: HotStuffCore
    var hqcTail: Block

    constructor (hsc: HotStuffCore)
      ensures this.hsc == hsc && hqcTail == Genesis
    {
      this.hsc := hsc;
      hqcTail := Genesis;
    }

    method CheckAncestry(a: Block, b: Block) returns (r: Option<bool>)
      requires StorageWired(hsc.storage) && a in hsc.storage && b in hsc.storage
      ensures r == Ancestry(hsc.storage, a, b)
    {
      var x := b;
      while hsc.storage[x].height > hsc.storage[a].height
        invariant x in hsc.storage
        invariant WalkDown(hsc.storage, b, hsc.storage[a].height) == WalkDown(hsc.storage, x, hsc.storage[a].height)
        decreases x
      {
        assert InfoWired(hsc.storage, x);
        if hsc.storage[x].parents == [] {
          return None;
        }
        x := hsc.storage[x].parents[0];
      }
      return Some(x == a);
    }

    /** The callback of a new highest certificate: start from its block and scan the tails, in any order.
      * ok is false if the scan read a cleared parent list. */
    method OnHqcUpdate() returns (ok: bool)
      requires Wired(hsc.Value()) && hsc.tails <= hsc.storage.Keys
      modifies this`hqcTail
      ensures ok ==> Tallest(hsc.Value(), hqcTail)
      ensures ok <==> forall x | x in hsc.tails :: Ancestry(hsc.storage, hsc.hqc, x).Some?
    {
      ghost var s := hsc.Value();
      hqcTail := hsc.hqc;
      var todo := hsc.tails;
      while todo != {}
        invariant todo <= s.tails && hqcTail in s.storage
        invariant forall x | x in s.tails && x !in todo :: Ancestry(s.storage, s.hqc, x).Some?
        invariant hqcTail == s.hqc || (Candidate(s, hqcTail) && s.storage[hqcTail].height > s.storage[s.hqc].height)
        invariant forall x | x in s.tails && x !in todo && Candidate(s, x) ::
          s.storage[x].height <= s.storage[hqcTail].height
        decreases todo
      {
        var tail :| tail in todo;
        todo := todo - {tail};
        var follows := CheckAncestry(hsc.hqc, tail);
        if follows.None? {
          return false;
        }
        if follows.value && hsc.storage[tail].height > hsc.storage[hqcTail].height {
          hqcTail := tail;
        }
      }
      return true;
    }

    /** The callback of an own proposal. */
    method OnOwnProposal(blk: Block)
      modifies this`hqcTail
      ensures hqcTail == blk
    {
      hqcTail := blk;
    }

    /** The callback of a received proposal. */
    method OnProposal(blk: Block) returns (ok: bool)
      requires Wired(hsc.Value()) && blk in hsc.storage && hqcTail in hsc.storage
      modifies this`hqcTail
      ensures ok <==> Ancestry(hsc.storage, hsc.hqc, blk).Some?
      ensures ok ==> hqcTail == AfterProposal(hsc.Value(), blk, old(hqcTail))
    {
      var follows := CheckAncestry(hsc.hqc, blk);
      if follows.None? {
        return false;
      }
      if follows.value && hsc.storage[blk].height > hsc.storage[hqcTail].height {
        hqcTail := blk;
      }
      return true;
    }

    method GetParents() returns (parents: seq<Block>)
      ensures parents == [hqcTail]
    {
      return [hqcTail];
    }
  }

  function AfterProposal(s: Core, blk: Block, t: Block): Block
    requires Wired(s) && blk in s.storage && t in s.storage
  {
    if Ancestry(s.storage, s.hqc, blk) == Some(true) && s.storage[blk].height > s.storage[t].height then blk else t
  }

  // ---------- in a run ----------

  /** The tail of a rule-following replica: delivered, and extending the highest certified block. */
  predicate TailOk(s: Core, t: Block) {
    DeliveredIn(s.storage, t) && Extends(t, s.hqc)
  }

  /** hqc_tail after a possible certificate update from s to m. */
  ghost predicate AfterHqc(s: Core, m: Core, t: Block, t': Block)
    requires Wired(m)
  {
    if m.hqc != s.hqc then Tallest(m, t') else t' == t
  }

  /** How one event at the tail's own replica moves hqc_tail. */
  ghost predicate TailStep(c: Config, y: Sys, e: Event, t: Block, t': Block)
    requires c.n >= 1 && Allowed(c, y, e)
  {
    var s, o := y.cores[e.r], Handle(c, y, e);
    match e
    case EvVote(_, b, voter, carriedFull) => AfterHqc(s, ReceiveVote(s, b, voter, carriedFull).core, t, t')
    case EvCertificate(_, b, qc) => AfterHqc(s, UpdateHqc(s, b, qc), t, t')
    case EvProposal(_, b) =>
      if !s.storage[b].delivered then t' == t
      else exists t1 ::
        && AfterUpdate(s, b, t, t1)
        && t1 in ReceiveProposal(c.build, s, b).core.storage
        && t' == AfterProposal(ReceiveProposal(c.build, s, b).core, b, t1)
    case EvPropose(_, cmds, parents, extra, _) =>
      if o.error.None? then t' == ProposedBlock(s, cmds, parents, extra) else t' == t
    case _ => t' == t
  }

  /** The callback runs inside update, as soon as the certificate is taken. */
  ghost predicate AfterUpdate(s: Core, b: Block, t: Block, t': Block)
    requires Wired(s) && b in s.storage
  {
    assert InfoWired(s.storage, b);
    if s.storage[b].qcRef.None? || s.storage[b.QcObj()].decision then t' == t
    else AfterHqc(s, UpdateHqc(s, b.QcObj(), b.Qc()), t, t')
  }

  function ProposedBlock(s: Core, cmds: seq<Command>, parents: seq<Block>, extra: seq<nat>): Block {
    Block(parents, cmds, s.hqcCert, extra)
  }

  lemma AncestryDecides(c: Config, votes: seq<Vote>, s: Core, b: Block)
    requires CoreInv(c, votes, s) && Wired(s) && DeliveredIn(s.storage, b)
    ensures Ancestry(s.storage, s.hqc, b) == Some(Extends(b, s.hqc))
  {
    WalkDecidesAncestry(c, votes, s.storage, s.bExec, b, s.hqc);
  }

  /** A received block becomes the tail exactly if it extends the highest certified block and is taller than the
    * tail. */
  lemma ProposalMovesTail(c: Config, votes: seq<Vote>, s: Core, b: Block, t: Block)
    requires CoreInv(c, votes, s) && Wired(s) && DeliveredIn(s.storage, b) && DeliveredIn(s.storage, t)
    ensures AfterProposal(s, b, t) == if Extends(b, s.hqc) && Height(b) > Height(t) then b else t
  {
    hide CoreInv, StorageWired, Height, Ancestry;
    AncestryDecides(c, votes, s, b);
    InvHeight(c, votes, s, b);
    InvHeight(c, votes, s, t);
  }

  /** After a certificate update the scan reads no cleared parent, and picks the tallest tail that
    * extends the new highest certified block, or that block itself. */
  lemma TallestExtends(c: Config, votes: seq<Vote>, s: Core, t: Block)
    requires CoreInv(c, votes, s) && Wired(s) && Tallest(s, t)
    ensures TailOk(s, t)
    ensures t == s.hqc || (t in s.tails && Height(t) > Height(s.hqc))
    ensures forall x | x in s.tails && Extends(x, s.hqc) :: Height(x) <= Height(t)
    ensures forall x | x in s.tails :: DeliveredIn(s.storage, x) && Ancestry(s.storage, s.hqc, x).Some?
  {
    hide StoreOk, WalkDown, Certified, Committed;
    forall x | x in s.tails
      ensures DeliveredIn(s.storage, x) && Ancestry(s.storage, s.hqc, x) == Some(Extends(x, s.hqc))
      ensures s.storage[x].height == Height(x)
    {
      assert DeliveredIn(s.storage, x);
      AncestryDecides(c, votes, s, x);
      InvHeight(c, votes, s, x);
    }
    InvHeight(c, votes, s, s.hqc);
  }

  lemma AfterHqcOk(c: Config, votes: seq<Vote>, s: Core, m: Core, t: Block, t': Block)
    requires CoreInv(c, votes, m) && Wired(m) && Grows(s.storage, m.storage)
    requires TailOk(s, t) && AfterHqc(s, m, t, t')
    ensures TailOk(m, t')
  {
    if m.hqc != s.hqc {
      TallestExtends(c, votes, m, t');
    }
  }

  /** The certificate that update takes, seen from its final state. */
  lemma {:induction false} UpdateTakesHqc(build: Build, s: Core, b: Block)
    requires Wired(s) && b in s.storage
    ensures InfoWired(s.storage, b)
    ensures Update(build, s, b).core.hqc ==
      if s.storage[b].qcRef.None? || s.storage[b.QcObj()].decision then s.hqc
      else UpdateHqc(s, b.QcObj(), b.Qc()).hqc
  {
    hide WalkDown, Passed, MarkDecided, Finalities;
    assert InfoWired(s.storage, b);
    if s.storage[b].qcRef.Some? {
      var blk2 := b.QcObj();
      assert InfoWired(s.storage, blk2);
    }
  }

  lemma ProposalTail(c: Config, votes: seq<Vote>, s: Core, b: Block, t: Block, t1: Block)
    requires CoreInv(c, votes, s) && Wired(s) && VotesOk(c, votes) && DeliveredIn(s.storage, b)
    requires TailOk(s, t) && AfterUpdate(s, b, t, t1)
    ensures var s' := ReceiveProposal(c.build, s, b).core;
      TailOk(s', t1) && TailOk(s', AfterProposal(s', b, t1))
  {
    hide Update, Opinion, CoreInv, UpdateHqc, Tallest, VotesOk, StorageWired, WalkDown;
    InvStore(c, votes, s);
    QcObjDelivered(c, votes, s.storage, s.bExec, b);
    UpdateInv(c, votes, s, b);
    UpdateTakesHqc(c.build, s, b);
    var u := Update(c.build, s, b).core;
    if s.storage[b].qcRef.Some? && !s.storage[b.QcObj()].decision {
      var m := UpdateHqc(s, b.QcObj(), b.Qc());
      UpdateHqcInv(c, votes, s, b.QcObj(), b.Qc());
      AfterHqcOk(c, votes, s, m, t, t1);
    }
    assert TailOk(u, t1) && DeliveredIn(u.storage, b);
    AncestryDecides(c, votes, u, b);
    var s' := ReceiveProposal(c.build, s, b).core;
    ProposalKeepsStore(c, votes, s, b);
  }

  /** After update, receiving a proposal only votes. */
  lemma ProposalKeepsStore(c: Config, votes: seq<Vote>, s: Core, b: Block)
    requires CoreInv(c, votes, s) && Wired(s) && VotesOk(c, votes) && DeliveredIn(s.storage, b)
    ensures var u, s' := Update(c.build, s, b).core, ReceiveProposal(c.build, s, b).core;
      s'.storage == u.storage && s'.hqc == u.hqc
  {
    hide Update, Opinion;
  }

  /** The block a proposal builds ends up delivered and extending the highest certified block. */
  lemma ProposeTail(c: Config, votes: seq<Vote>, s: Core, cmds: seq<Command>, parents: seq<Block>,
                    extra: seq<nat>, carriedFull: bool)
    requires CoreInv(c, votes, s) && Wired(s) && VotesOk(c, votes)
    requires forall p | p in parents :: DeliveredIn(s.storage, p) && Height(p) <= Height(parents[0])
    requires parents != [] ==> Extends(parents[0], s.hqc)
    ensures var o := Propose(c.build, s, cmds, parents, extra, carriedFull);
      && (o.error.None? ==> TailOk(o.core, ProposedBlock(s, cmds, parents, extra)))
      && (o.error.Some? ==> o.core.hqc == s.hqc)
      && Grows(s.storage, o.core.storage)
  {
    hide ProcessBlock, AddNew, StorageWired;
    if parents != [] {
      var b := NewBlock(s, cmds, parents, extra);
      NewBlockAdmissible(c, votes, s, cmds, parents, extra);
      AddNewInv(c, votes, s, b);
      AddNewTails(s, b, s.tails);
      ProposeIgnoresErasure(c, votes, s, b, carriedFull);
      ProcessTail(c, votes, AddNew(s, b), b, carriedFull);
    }
  }

  lemma ProcessTail(c: Config, votes: seq<Vote>, s: Core, b: Block, carriedFull: bool)
    requires CoreInv(c, votes, s) && Wired(s) && VotesOk(c, votes) && b in s.storage
    requires Admissible(c, votes, b) && LowerParents(b) && b.QcObj() == s.hqc
    ensures var o := ProcessBlock(c.build, s, b, true, carriedFull);
      && (o.error.None? ==> TailOk(o.core, b))
      && (o.error.Some? ==> o.core.hqc == s.hqc)
      && Grows(s.storage, o.core.storage)
  {
    hide Deliver, Update, OpenSelfQc, CoreInv, ReceiveVote, VotesOk, Extends, Admissible, LowerParents, StoreOk, Wired;
    InvStore(c, votes, s);
    var s1 := OpenSelfQc(s, b);
    OpenSelfQcInv(c, votes, s, b);
    var d := Deliver(s1, b);
    DeliverInv(c, votes, s1, b);
    DeliverQuiet(s1, b);
    if d.error.None? {
      UpdateInv(c, votes, d.core, b);
      var u := Update(c.build, d.core, b).core;
      assert DeliveredIn(u.storage, b);
      if u.storage[b].height > u.vheight {
        var s2 := u.(vheight := u.storage[b].height, signed := u.signed + [b]);
        VotingKeepsWires(u, s2.vheight, s2.signed);
        OwnVote(s2, b, carriedFull);
        ExtendsQcObj(c, votes, b);
      }
    }
  }

  lemma ExtendsQcObj(c: Config, votes: seq<Vote>, b: Block)
    requires c.n >= 1 && Admissible(c, votes, b)
    ensures Extends(b, b.QcObj()) && Extends(b, b)
  {
  }

  /** Counting the own vote either leaves the highest certified block or makes it b. */
  lemma OwnVote(s: Core, b: Block, carriedFull: bool)
    requires Wired(s) && DeliveredIn(s.storage, b)
    ensures var o := ReceiveVote(s, b, s.id, carriedFull);
      o.error.None? && (o.core.hqc == s.hqc || o.core.hqc == b) && Grows(s.storage, o.core.storage)
  {
    hide StorageWired, AddVoter, AddPart;
    AddVoterTouches(s, b, s.id);
    AddPartTouches(AddVoter(s, b, s.id), b, s.id);
  }

  lemma AddVoterTouches(s: Core, b: Block, voter: ReplicaId)
    requires Wired(s) && b in s.storage
    ensures Grows(s.storage, AddVoter(s, b, voter).storage) && AddVoter(s, b, voter).hqc == s.hqc
    ensures AddVoter(s, b, voter).id == s.id && AddVoter(s, b, voter).nmajority == s.nmajority
  {
    hide StorageWired, InfoWired;
  }

  lemma AddPartTouches(s: Core, b: Block, voter: ReplicaId)
    requires Wired(s) && b in s.storage
    ensures Grows(s.storage, AddPart(s, b, voter).storage) && AddPart(s, b, voter).hqc == s.hqc
  {
    hide StorageWired, InfoWired;
  }

  lemma TailStepOk(c: Config, y: Sys, e: Event, t: Block, t': Block)
    requires Inv(c, y) && Allowed(c, y, e) && TailOk(y.cores[e.r], t) && TailStep(c, y, e, t, t')
    ensures TailOk(Handle(c, y, e).core, t')
  {
    hide CoreInv, Fetch, Deliver, ReceiveProposal, Propose, ReceiveVote, UpdateHqc, Pruning.Prune, VotesOk,
      AfterHqc, AfterUpdate,
         TailOk, AfterProposal, Admissible, CertOk, Wired;
    var s, votes := y.cores[e.r], y.votes;
    match e {
      case EvFetch(_, b) =>
        FetchInv(c, votes, s, b);
        SameTail(s, Fetch(s, b), t) by {
          FetchKeepsHqc(s, b);
        }
      case EvDeliver(_, b) =>
        DeliverQuiet(s, b);
        SameTail(s, Deliver(s, b).core, t);
      case EvProposal(_, b) =>
        if s.storage[b].delivered {
          var t1 :| AfterUpdate(s, b, t, t1)
            && t1 in ReceiveProposal(c.build, s, b).core.storage
            && t' == AfterProposal(ReceiveProposal(c.build, s, b).core, b, t1);
          ProposalTail(c, votes, s, b, t, t1);
        } else {
          UndeliveredProposal(c.build, s, b);
        }
      case EvPropose(_, cmds, parents, extra, carriedFull) =>
        ProposeTail(c, votes, s, cmds, parents, extra, carriedFull);
        if Handle(c, y, e).error.Some? {
          SameTail(s, Handle(c, y, e).core, t);
        }
      case EvVote(_, b, voter, carriedFull) =>
        ReceiveVoteInv(c, votes, s, b, voter, carriedFull);
        AfterHqcOk(c, votes, s, ReceiveVote(s, b, voter, carriedFull).core, t, t');
      case EvCertificate(_, b, qc) =>
        UpdateHqcInv(c, votes, s, b, qc);
        AfterHqcOk(c, votes, s, UpdateHqc(s, b, qc), t, t');
      case EvPrune(_, staleness) =>
        Pruning.PruneInv(c, votes, s, staleness);
        SameTail(s, Pruning.Prune(s, staleness), t) by {
          PruneKeepsHqc(s, staleness);
        }
    }
  }

  lemma SameTail(s: Core, s': Core, t: Block)
    requires TailOk(s, t) && s'.hqc == s.hqc && Grows(s.storage, s'.storage)
    ensures TailOk(s', t)
  {
  }

  lemma FetchKeepsHqc(s: Core, b: Block)
    requires Wired(s)
    ensures Fetch(s, b).hqc == s.hqc
  {
  }

  lemma PruneKeepsHqc(s: Core, staleness: nat)
    requires Wired(s)
    ensures Pruning.Prune(s, staleness).hqc == s.hqc
  {
  }

  lemma UndeliveredProposal(build: Build, s: Core, b: Block)
    requires Wired(s) && b in s.storage && !s.storage[b].delivered
    ensures ReceiveProposal(build, s, b).core == s
  {
  }

  /** ts are the values of r's hqc_tail along a run. */
  ghost predicate TailRunStep(c: Config, ys: seq<Sys>, es: seq<Event>, r: ReplicaId, ts: seq<Block>, i: nat)
    requires c.n >= 1 && |ys| == |es| + 1 == |ts| && i < |es|
  {
    && Allowed(c, ys[i], es[i])
    && if es[i].r == r then TailStep(c, ys[i], es[i], ts[i], ts[i + 1]) else ts[i + 1] == ts[i]
  }

  ghost predicate IsTailRun(c: Config, ys: seq<Sys>, es: seq<Event>, r: ReplicaId, ts: seq<Block>)
    requires c.n >= 1
  {
    && IsRun(c, ys, es)
    && |ts| == |ys|
    && ts[0] == Genesis
    && forall i {:trigger TailRunStep(c, ys, es, r, ts, i)} | 0 <= i < |es| :: TailRunStep(c, ys, es, r, ts, i)
  }

  /** In every run, hqc_tail is delivered and extends the highest certified block. */
  lemma {:induction false} TailAlwaysOk(c: Config, ys: seq<Sys>, es: seq<Event>, r: ReplicaId, ts: seq<Block>, i: nat)
    requires c.Valid() && c.Honest(r) && IsTailRun(c, ys, es, r, ts) && i < |ys|
    ensures r in ys[i].cores && TailOk(ys[i].cores[r], ts[i])
  {
    hide CoreInv, VotesOk, Handle, Allowed, TailStep;
    RunInv(c, ys, es, i);
    if i == 0 {
      assert ys[0].cores[r] == ConsensusCore.Init(r, c.NMajority(), c.Replicas(), ys[0].cores[r].voteDisabled);
    } else {
      TailAlwaysOk(c, ys, es, r, ts, i - 1);
      RunInv(c, ys, es, i - 1);
      RunStep(c, ys, es, i - 1);
      assert TailRunStep(c, ys, es, r, ts, i - 1);
      if es[i - 1].r == r {
        TailStepOk(c, ys[i - 1], es[i - 1], ts[i - 1], ts[i]);
      }
    }
  }

  /** So at every moment of every run the chosen parent may be proposed on, and the new block's
    * certificate names a proper ancestor of it. */
  lemma ParentSelectionAllowed(c: Config, ys: seq<Sys>, es: seq<Event>, r: ReplicaId, ts: seq<Block>, i: nat,
                               cmds: seq<Command>, extra: seq<nat>, carriedFull: bool)
    requires c.Valid() && c.Honest(r) && IsTailRun(c, ys, es, r, ts) && i < |ys|
    ensures Allowed(c, ys[i], EvPropose(r, cmds, [ts[i]], extra, carriedFull))
    ensures var b := ProposedBlock(ys[i].cores[r], cmds, [ts[i]], extra);
      b.HasParent() && Extends(b.parents[0], b.QcObj()) && Height(b.QcObj()) < Height(b)
  {
    hide TailRunStep, IsRun, StoreOk, TailsOk, LogOk, SignedOk, VoterOk, VotesOk, Certified, Committed;
    TailAlwaysOk(c, ys, es, r, ts, i);
    RunInv(c, ys, es, i);
    InvIsWired(c, ys[i].votes, ys[i].cores[r]);
    ExtendsHeight(ts[i], ys[i].cores[r].hqc);
  }
}
