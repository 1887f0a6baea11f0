/** The single events a run is made of, each with a world it leads to. */
module Moves {
  import opened Blocks
  import opened Votes
  import opened ConsensusCore
  import opened Invariant
  import opened Preservation
  import opened Handlers
  import opened Agreement
  import opened PaceMaker
  import opened Effects
  import opened Worlds

  /** Only replica r differs. */
  predicate Moved(w: World, w': World, r: ReplicaId) {
    && w.Has(r) && w'.Has(r)
    && w'.sys.cores == w.sys.cores[r := w'.At(r)]
    && w'.tails == w.tails[r := w'.tails[r]]
    && w'.beats == w.beats[r := w'.beats[r]]
  }

  /** The world after e with the given tail at its replica. */
  ghost function After(c: Config, w: World, e: Event, t: Block): World
    requires c.n >= 1 && Allowed(c, w.sys, e) && w.Has(e.r)
  {
    World(Next(c, w.sys, e), w.tails[e.r := t], w.beats[e.r := BeatAfter(c, w.sys, e, w.beats[e.r])])
  }

  lemma AfterStep(c: Config, w: World, e: Event, t: Block)
    requires WorldInv(c, w) && c.n >= 1 && Allowed(c, w.sys, e) && w.Has(e.r)
    requires e.EvPropose? ==> e.parents == [w.tails[e.r]]
    requires TailStep(c, w.sys, e, w.tails[e.r], t)
    ensures var w' := After(c, w, e, t);
      && WorldStep(c, w, e, w') && WorldInv(c, w') && Moved(w, w', e.r) && w'.tails[e.r] == t
      && w'.At(e.r) == Handle(c, w.sys, e).core
      && w'.sys.votes == VotesAfter(w.sys.votes, w.At(e.r), w'.At(e.r))
      && w'.beats[e.r] == BeatAfter(c, w.sys, e, w.beats[e.r])
  {
    hide WorldInv, Allowed, Handle, TailStep, BeatAfter;
    var w' := After(c, w, e, t);
    assert w'.Has(e.r);
    WorldStepInv(c, w, e, w');
  }

  lemma FetchMove(c: Config, w: World, r: ReplicaId, b: Block) returns (w': World)
    requires WorldInv(c, w) && r in w.sys.cores
    ensures c.n >= 1 && WorldStep(c, w, EvFetch(r, b), w') && WorldInv(c, w') && Moved(w, w', r)
    ensures Wired(w.At(r)) && w'.At(r) == Fetch(w.At(r), b)
    ensures w'.tails == w.tails && w'.beats == w.beats && w'.sys.votes == w.sys.votes
  {
    hide WorldInv, CoreInv, VotesOk, Wired, Fetch;
    WorldCore(c, w, r);
    var e := EvFetch(r, b);
    assert Allowed(c, w.sys, e);
    FetchEffect(w.At(r), b);
    AfterStep(c, w, e, w.tails[r]);
    w' := After(c, w, e, w.tails[r]);
  }

  lemma DeliverMove(c: Config, w: World, r: ReplicaId, b: Block) returns (w': World)
    requires WorldInv(c, w) && r in w.sys.cores && b in w.At(r).storage
    requires c.n >= 1 && Admissible(c, w.sys.votes, b) && LowerParents(b)
    ensures WorldStep(c, w, EvDeliver(r, b), w') && WorldInv(c, w') && Moved(w, w', r)
    ensures Wired(w.At(r)) && w'.At(r) == Deliver(w.At(r), b).core
    ensures w'.tails == w.tails && w'.beats == w.beats && w'.sys.votes == w.sys.votes
  {
    hide WorldInv, CoreInv, VotesOk, Wired, Deliver, Admissible;
    WorldCore(c, w, r);
    var e := EvDeliver(r, b);
    assert Allowed(c, w.sys, e);
    DeliverEffect(w.At(r), b);
    AfterStep(c, w, e, w.tails[r]);
    w' := After(c, w, e, w.tails[r]);
  }

  lemma FetchKeys(s: Core, b: Block)
    requires Wired(s)
    ensures Fetch(s, b).storage.Keys == s.storage.Keys + {b}
    ensures DeliveredIn(Fetch(s, b).storage, b) <==> DeliveredIn(s.storage, b)
  {
  }

  lemma DeliverSound(c: Config, votes: seq<Vote>, s: Core, b: Block)
    requires CoreInv(c, votes, s) && Wired(s) && b in s.storage && c.n >= 1
    requires Admissible(c, votes, b) && forall p | p in b.parents :: DeliveredIn(s.storage, p)
    ensures DeliveredIn(Deliver(s, b).core.storage, b)
  {
    hide CoreInv, StorageWired, StoreOk, CertOk, Deliver;
    if s.storage[b].delivered {
      DeliveredAlready(s, b);
    } else {
      InvStore(c, votes, s);
      assert b.parents[0] in b.parents;
      AncestorDelivered(c, votes, s.storage, s.bExec, b.parents[0], b.QcObj());
      LocksAreLow(c, votes, s);
      DeliverForm(s, b);
    }
  }

  /** A block whose parents are there is fetched and delivered. */
  lemma TakeMoves(c: Config, w: World, r: ReplicaId, b: Block) returns (w1: World, w2: World)
    requires WorldInv(c, w) && r in w.sys.cores
    requires c.n >= 1 && b != Genesis && Admissible(c, w.sys.votes, b) && LowerParents(b)
    requires forall p | p in b.parents :: DeliveredIn(w.At(r).storage, p)
    ensures WorldStep(c, w, EvFetch(r, b), w1) && WorldInv(c, w1) && Moved(w, w1, r)
    ensures WorldStep(c, w1, EvDeliver(r, b), w2) && WorldInv(c, w2) && Moved(w, w2, r)
    ensures w2.tails == w.tails && w2.beats == w.beats && w2.sys.votes == w.sys.votes
    ensures Kept(w.At(r), w2.At(r)) && DeliveredIn(w2.At(r).storage, b)
    ensures w2.At(r).storage.Keys == w.At(r).storage.Keys + {b}
  {
    hide WorldInv, CoreInv, VotesOk, StorageWired, Fetch, Deliver, Admissible, LowerParents;
    var s := w.At(r);
    w1 := FetchMove(c, w, r, b);
    WorldCore(c, w, r);
    WorldCore(c, w1, r);
    FetchEffect(s, b);
    FetchKeys(s, b);
    w2 := DeliverMove(c, w1, r, b);
    DeliverEffect(w1.At(r), b);
    forall p | p in b.parents ensures DeliveredIn(w1.At(r).storage, p) {
      assert DeliveredIn(s.storage, p);
    }
    DeliverSound(c, w1.sys.votes, w1.At(r), b);
  }

  /** A set of blocks has a highest one among those at least as high as t. */
  lemma {:induction false} HighestOf(s: Core, todo: set<Block>, t: Block) returns (top: Block)
    requires StorageWired(s.storage) && s.hqc in s.storage && t in s.storage
    requires forall y | y in todo :: y in s.storage
    ensures top in s.storage && s.storage[top].height >= s.storage[t].height
    ensures top == t || (top in todo && s.storage[top].height > s.storage[t].height)
    ensures forall y | y in todo :: s.storage[y].height <= s.storage[top].height
    decreases todo
  {
    hide WalkDown;
    if todo == {} {
      top := t;
    } else {
      var y :| y in todo;
      top := HighestOf(s, todo - {y}, t);
      if s.storage[y].height > s.storage[top].height {
        top := y;
      }
    }
  }

  lemma SomeTallest(s: Core) returns (t: Block)
    requires Wired(s)
    ensures Tallest(s, t)
  {
    hide InfoWired, Ancestry;
    var todo := set y | y in s.tails && Candidate(s, y);
    t := HighestOf(s, todo, s.hqc);
  }

  lemma SomeTail(c: Config, votes: seq<Vote>, s: Core, b: Block, t: Block) returns (t1: Block)
    requires CoreInv(c, votes, s) && Wired(s) && DeliveredIn(s.storage, b) && t in s.storage
    ensures AfterUpdate(s, b, t, t1) && t1 in s.storage
  {
    hide CoreInv, StorageWired, Tallest, UpdateHqc, StoreOk;
    InvStore(c, votes, s);
    QcObjDelivered(c, votes, s.storage, s.bExec, b);
    var m := UpdateHqc(s, b.QcObj(), b.Qc());
    if m.hqc == s.hqc {
      t1 := t;
    } else {
      t1 := SomeTallest(m);
      TallestStored(m, t1);
      if s.storage[b].qcRef.None? || s.storage[b.QcObj()].decision {
        t1 := t;
      }
    }
  }

  lemma TallestStored(s: Core, t: Block)
    requires Wired(s) && Tallest(s, t)
    ensures t in s.storage
  {
  }

  lemma ShowMove(c: Config, w: World, r: ReplicaId, b: Block) returns (w': World)
    requires WorldInv(c, w) && r in w.sys.cores && DeliveredIn(w.At(r).storage, b) && b != Genesis
    ensures c.n >= 1 && WorldStep(c, w, EvProposal(r, b), w') && WorldInv(c, w') && Moved(w, w', r)
    ensures Shown(c.build, w.At(r), w'.At(r), b)
    ensures w'.At(r).storage.Keys == w.At(r).storage.Keys && Grows(w.At(r).storage, w'.At(r).storage)
    ensures w.sys.votes <= w'.sys.votes
  {
    hide WorldInv, CoreInv, VotesOk, Wired, ReceiveProposal, AfterUpdate, Ancestry;
    WorldCore(c, w, r);
    var e, s := EvProposal(r, b), w.At(r);
    assert Allowed(c, w.sys, e);
    ProposalEffect(c, w.sys.votes, s, b);
    var s' := ReceiveProposal(c.build, s, b).core;
    var t1 := SomeTail(c, w.sys.votes, s, b, w.tails[r]);
    var t := AfterProposal(s', b, t1);
    AfterStep(c, w, e, t);
    w' := After(c, w, e, t);
  }

  /** A successful proposal. */
  lemma ProposeMove(c: Config, w: World, r: ReplicaId, cmds: seq<Command>, full: bool) returns (w': World)
    requires WorldInv(c, w) && r in w.sys.cores && w.Has(r) && Height(w.tails[r]) + 1 > w.At(r).vheight
    ensures c.n >= 1 && WorldStep(c, w, EvPropose(r, cmds, [w.tails[r]], [], full), w')
    ensures WorldInv(c, w') && Moved(w, w', r)
    ensures w'.tails[r] == NewBlock(w.At(r), cmds, [w.tails[r]], [])
    ensures w'.beats[r] == w.beats[r].(last := w'.tails[r])
  {
    hide WorldInv, CoreInv, VotesOk, Wired, Propose;
    WorldCore(c, w, r);
    var t, s := w.tails[r], w.At(r);
    var e := EvPropose(r, cmds, [t], [], full);
    LocksAreLow(c, w.sys.votes, s);
    assert Allowed(c, w.sys, e);
    ProposeEffect(c, w.sys.votes, s, cmds, t, [], full);
    var b := NewBlock(s, cmds, [t], []);
    NewBlockIs(s, cmds, t, []);
    AfterStep(c, w, e, b);
    w' := After(c, w, e, b);
  }

  /** b is delivered and nothing delivered is built on it. */
  ghost predicate OnTop(s: Core, b: Block) {
    DeliveredIn(s.storage, b) && forall y | DeliveredIn(s.storage, y) && Extends(y, b) :: y == b
  }

  /** A block on top gets its certificate and becomes the highest certified block and the tail. */
  lemma CertifyMove(c: Config, w: World, r: ReplicaId, b: Block, qc: Cert) returns (w': World)
    requires WorldInv(c, w) && r in w.sys.cores && OnTop(w.At(r), b) && Height(b) > Height(w.At(r).hqc)
    requires c.n >= 1 && qc.obj == b && CertOk(c, w.sys.votes, qc)
    ensures WorldStep(c, w, EvCertificate(r, b, qc), w') && WorldInv(c, w') && Moved(w, w', r)
    ensures w'.At(r) == w.At(r).(hqc := b, hqcCert := qc) && w'.tails[r] == b
    ensures w'.beats[r] == w.beats[r].(finished := w.beats[r].finished + {b})
    ensures w'.sys.votes == w.sys.votes
  {
    hide WorldInv, CoreInv, VotesOk, CertOk, StorageWired;
    WorldCore(c, w, r);
    var e, s := EvCertificate(r, b, qc), w.At(r);
    assert Allowed(c, w.sys, e);
    LocksAreLow(c, w.sys.votes, s);
    InvHeight(c, w.sys.votes, s, b);
    InvHeight(c, w.sys.votes, s, s.hqc);
    var m := UpdateHqc(s, b, qc);
    UpdateHqcInv(c, w.sys.votes, s, b, qc);
    var t := SomeTallest(m);
    TallestIsTop(c, w.sys.votes, m, t);
    AfterStep(c, w, e, b);
    w' := After(c, w, e, b);
  }

  lemma TallestIsTop(c: Config, votes: seq<Vote>, s: Core, t: Block)
    requires CoreInv(c, votes, s) && Wired(s) && Tallest(s, t) && OnTop(s, s.hqc)
    ensures t == s.hqc
  {
    hide CoreInv, StorageWired, Tallest;
    TallestExtends(c, votes, s, t);
  }
}
