/** The handlers of the protocol state machine, as functions from one state of a replica to the next.
  *
  * Each handler yields the state it leaves behind and the exception it throws, if any;
  * the state is the one at the throw.  DanglingRead stands for reading parents[0] of a
  * block whose parents have been cleared or were never there, which the program does
  * not check.
  */
module ConsensusCore {
  import opened Blocks
  import opened Votes

  datatype Error =
    | NotDelivered
    | QcNotFetched
    | EmptyParents
    | SafetyBreached
    | NotAboveVheight
    | DanglingRead

  /** The fields of a block that a replica derives and changes; storage maps each known block to them. */
  datatype Info = Info(
    parents: seq<Block>,
    qcRef: Option<Block>,
    height: nat,
    delivered: bool,
    decision: bool,
    voted: set<ReplicaId>,
    selfQc: Option<Cert>)

  type Storage = map<Block, Info>

  datatype Finality = Finality(
    rid: ReplicaId, decision: int, cmdIdx: nat, cmdHeight: nat, cmd: Command, blk: Block)

  /** A replica.  log, decided and signed record its outputs: the blocks given to do_consensus,
    * the finalities given to do_decide, and the blocks it has created a signature for. */
  datatype Core = Core(
    id: ReplicaId,
    nmajority: nat,
    storage: Storage,
    hqc: Block,
    hqcCert: Cert,
    bLock: Block,
    bExec: Block,
    vheight: nat,
    tails: set<Block>,
    pipedQueue: seq<Block>,
    voteDisabled: bool,
    log: seq<Block>,
    decided: seq<Finality>,
    signed: seq<Block>)

  datatype Outcome = Outcome(core: Core, error: Option<Error>)

  // ---------- pointers ----------

  /** The pointers a block holds lead to stored blocks, and are those its hashed fields name. */
  predicate InfoWired(st: Storage, b: Block)
    requires b in st
  {
    && st[b].parents <= b.Parents()
    && (forall p | p in st[b].parents :: p in st)
    && (st[b].qcRef.Some? ==> st[b].qcRef.value == b.QcObj() && b.QcObj() in st)
  }

  predicate StorageWired(st: Storage) {
    Genesis in st && forall b {:trigger InfoWired(st, b)} | b in st :: InfoWired(st, b)
  }

  predicate Wired(s: Core) {
    && StorageWired(s.storage)
    && s.hqc in s.storage && s.bLock in s.storage && s.bExec in s.storage
    && (forall p | p in s.pipedQueue :: p in s.storage)
  }

  /** Changing one block's derived fields keeps the pointers of all the others. */
  lemma WiredAfter(st: Storage, b: Block, i: Info)
    requires StorageWired(st)
    requires i.parents <= b.Parents()
    requires forall p | p in i.parents :: p in st
    requires i.qcRef.Some? ==> i.qcRef.value == b.QcObj() && b.QcObj() in st
    ensures StorageWired(st[b := i])
  {
    var st' := st[b := i];
    forall x | x in st' ensures InfoWired(st', x) {
      if x != b {
        assert InfoWired(st, x);
      }
    }
  }

  // ---------- storage ----------

  const FRESH: Info := Info([], None, 0, false, false, {}, None)

  /** A block parsed from a message or fetched from a peer enters storage; one already there stays as it is. */
  function Fetch(s: Core, b: Block): (s': Core)
    requires Wired(s)
    ensures Wired(s')
  {
    if b in s.storage then s
    else
      WiredAfter(s.storage, b, FRESH);
      s.(storage := s.storage[b := FRESH])
  }

  // ---------- on_deliver_blk ----------

  /** A parent hash that delivery can turn into a block: stored, and delivered or still in the pipeline. */
  predicate Resolvable(s: Core, p: Block) {
    p in s.storage && (p in s.pipedQueue || s.storage[p].delivered)
  }

  /** The parents found before the first one that cannot be. */
  function ResolvedParents(s: Core, ps: seq<Block>): (rs: seq<Block>)
    ensures rs <= ps
    ensures forall p | p in rs :: Resolvable(s, p)
    ensures rs == ps <==> forall p | p in ps :: Resolvable(s, p)
  {
    if ps == [] || !Resolvable(s, ps[0]) then []
    else
      assert ps == [ps[0]] + ps[1..];
      [ps[0]] + ResolvedParents(s, ps[1..])
  }

  function Deliver(s: Core, b: Block): (o: Outcome)
    requires Wired(s) && b in s.storage
    ensures Wired(o.core)
    ensures o.core.storage.Keys == s.storage.Keys
  {
    var i := s.storage[b];
    if i.delivered then Outcome(s, None)
    else
      var ps := ResolvedParents(s, b.Parents());
      var i1 := i.(parents := ps);
      assert InfoWired(s.storage, b);
      WiredAfter(s.storage, b, i1);
      if ps != b.Parents() then
        Outcome(s.(storage := s.storage[b := i1]), Some(NotDelivered))
      else if ps == [] then
        Outcome(s.(storage := s.storage[b := i1]), Some(DanglingRead))
      else
        var i2 := i1.(height := s.storage[ps[0]].height + 1);
        WiredAfter(s.storage, b, i2);
        if b.QcObj() !in s.storage then
          Outcome(s.(storage := s.storage[b := i2]), Some(QcNotFetched))
        else
          var i3 := i2.(qcRef := Some(b.QcObj()), delivered := true);
          WiredAfter(s.storage, b, i3);
          Outcome(s.(storage := s.storage[b := i3],
                     tails := s.tails - (set p | p in ps) + {b}), None)
  }

  // ---------- update ----------

  function UpdateHqc(s: Core, b: Block, qc: Cert): (s': Core)
    requires Wired(s) && b in s.storage
    ensures Wired(s')
    ensures s'.storage.Keys == s.storage.Keys
  {
    if s.storage[b].height > s.storage[s.hqc].height then s.(hqc := b, hqcCert := qc) else s
  }

  function RaiseLock(s: Core, b: Block): (s': Core)
    requires Wired(s) && b in s.storage
    ensures Wired(s')
    ensures s'.storage.Keys == s.storage.Keys
  {
    if s.storage[b].height > s.storage[s.bLock].height then s.(bLock := b) else s
  }

  /** Where the walk along parents[0] from b stops: the first block no higher than h; None if it runs off a cleared
    * parent. */
  function WalkDown(st: Storage, b: Block, h: nat): (r: Option<Block>)
    requires StorageWired(st) && b in st
    ensures r.Some? ==> r.value in st && Extends(b, r.value) && st[r.value].height <= h
  {
    assert InfoWired(st, b);
    if st[b].height <= h then Some(b)
    else if st[b].parents == [] then None
    else WalkDown(st, st[b].parents[0], h)
  }

  /** The blocks that walk passes, lowest first. */
  function Passed(st: Storage, b: Block, h: nat): (q: seq<Block>)
    requires StorageWired(st) && b in st
    ensures forall x | x in q :: x in st
  {
    assert InfoWired(st, b);
    if st[b].height <= h then []
    else if st[b].parents == [] then [b]
    else Passed(st, st[b].parents[0], h) + [b]
  }

  function MarkDecided(st: Storage, q: seq<Block>): (st': Storage)
    ensures st'.Keys == st.Keys
    ensures StorageWired(st) ==> StorageWired(st')
  {
    var st' := map b | b in st :: if b in q then st[b].(decision := true) else st[b];
    assert StorageWired(st) ==> StorageWired(st') by {
      if StorageWired(st) {
        forall b | b in st' ensures InfoWired(st', b) {
          assert InfoWired(st, b);
        }
      }
    }
    st'
  }

  /** The decisions one committed block yields: its commands in order. */
  function BlockFinalities(id: ReplicaId, height: nat, b: Block): seq<Finality> {
    seq(|b.Cmds()|, i requires 0 <= i < |b.Cmds()| => Finality(id, 1, i, height, b.Cmds()[i], b))
  }

  function Finalities(id: ReplicaId, st: Storage, q: seq<Block>): seq<Finality>
    requires forall b | b in q :: b in st
  {
    if q == [] then []
    else
      var last := q[|q| - 1];
      assert last in q;
      Finalities(id, st, q[..|q| - 1]) + BlockFinalities(id, st[last].height, last)
  }

  /** Commit b and its ancestors above b_exec. */
  function Commit(s: Core, b: Block): (o: Outcome)
    requires Wired(s) && b in s.storage
    ensures Wired(o.core)
    ensures o.core.voteDisabled == s.voteDisabled
    ensures o.core.storage.Keys == s.storage.Keys
  {
    var h := s.storage[s.bExec].height;
    match WalkDown(s.storage, b, h)
    case None => Outcome(s, Some(DanglingRead))
    case Some(base) =>
      if base != s.bExec then Outcome(s, Some(SafetyBreached))
      else
        var q := Passed(s.storage, b, h);
        Outcome(s.(storage := MarkDecided(s.storage, q),
                   log := s.log + q,
                   decided := s.decided + Finalities(s.id, s.storage, q),
                   bExec := b), None)
  }

  /** The part of update that both builds share, from the block to lock on.  linked says whether
    * the chain above is of direct parents; None stands for a read of a cleared parent list. */
  function LockAndCommit(s: Core, blk1: Block, linked: Option<bool>): (o: Outcome)
    requires Wired(s) && blk1 in s.storage
    ensures Wired(o.core)
    ensures o.core.voteDisabled == s.voteDisabled
    ensures o.core.storage.Keys == s.storage.Keys
  {
    var s1 := RaiseLock(s, blk1);
    assert InfoWired(s.storage, blk1);
    match s.storage[blk1].qcRef
    case None => Outcome(s1, None)
    case Some(blk) =>
      if s.storage[blk].decision then Outcome(s1, None)
      else if linked.None? then Outcome(s1, Some(DanglingRead))
      else if !linked.value then Outcome(s1, None)
      else if s.storage[blk1].parents == [] then Outcome(s1, Some(DanglingRead))
      else if s.storage[blk1].parents[0] != blk then Outcome(s1, None)
      else Commit(s1, blk)
  }

  function Update(build: Build, s: Core, nblk: Block): (o: Outcome)
    requires Wired(s) && nblk in s.storage
    ensures Wired(o.core)
    ensures o.core.voteDisabled == s.voteDisabled
    ensures o.core.storage.Keys == s.storage.Keys
  {
    assert InfoWired(s.storage, nblk);
    match s.storage[nblk].qcRef
    case None => Outcome(s, None)
    case Some(blk2) =>
      assert InfoWired(s.storage, blk2);
      if s.storage[blk2].decision then Outcome(s, None)
      else
        var s1 := UpdateHqc(s, blk2, nblk.Qc());
        if build.TwoStep? then LockAndCommit(s1, blk2, Some(true))
        else
          match s.storage[blk2].qcRef
          case None => Outcome(s1, None)
          case Some(blk1) =>
            if s.storage[blk1].decision then Outcome(s1, None)
            else
              var ps := s.storage[blk2].parents;
              LockAndCommit(s1, blk1, if ps == [] then None else Some(ps[0] == blk1))
  }

  // ---------- on_receive_proposal ----------

  /** The vote rule; None stands for a read of a cleared parent list. */
  function Opinion(s: Core, b: Block): Option<bool>
    requires Wired(s) && b in s.storage
  {
    var i := s.storage[b];
    assert InfoWired(s.storage, b);
    if i.height <= s.vheight then Some(false)
    else if i.qcRef.Some? && s.storage[i.qcRef.value].height > s.storage[s.bLock].height then Some(true)
    else
      match WalkDown(s.storage, b, s.storage[s.bLock].height)
      case None => None
      case Some(base) => Some(base == s.bLock)
  }

  function ReceiveProposal(build: Build, s: Core, b: Block): (o: Outcome)
    requires Wired(s) && b in s.storage
    ensures Wired(o.core)
    ensures o.core.storage.Keys == s.storage.Keys
  {
    if !s.storage[b].delivered then Outcome(s, Some(NotDelivered))
    else
      var u := Update(build, s, b);
      if u.error.Some? then u
      else
        match Opinion(u.core, b)
        case None => Outcome(u.core, Some(DanglingRead))
        case Some(opinion) =>
          if !opinion then u
          else
            var s1 := u.core.(vheight := u.core.storage[b].height);
            Outcome(if s.voteDisabled then s1 else s1.(signed := s1.signed + [b]), None)
  }

  // ---------- on_receive_vote ----------

  function AddVoter(s: Core, b: Block, voter: ReplicaId): (s': Core)
    requires Wired(s) && b in s.storage
    ensures Wired(s')
    ensures s'.storage.Keys == s.storage.Keys
  {
    var i := s.storage[b];
    assert InfoWired(s.storage, b);
    var i' := i.(voted := i.voted + {voter});
    WiredAfter(s.storage, b, i');
    s.(storage := s.storage[b := i'])
  }

  /** Put the signature of voter into the certificate collected for b. */
  function AddPart(s: Core, b: Block, voter: ReplicaId): (s': Core)
    requires Wired(s) && b in s.storage
    ensures Wired(s')
    ensures s'.storage.Keys == s.storage.Keys
    ensures s'.storage[b].selfQc.Some?
  {
    var i := s.storage[b];
    assert InfoWired(s.storage, b);
    var qc := if i.selfQc.Some? then i.selfQc.value else Cert(b, {});
    var i' := i.(selfQc := Some(qc.(signers := qc.signers + {voter})));
    WiredAfter(s.storage, b, i');
    s.(storage := s.storage[b := i'])
  }

  /** carriedFull is what has_n(nmajority) answers on the certificate b carries. */
  function ReceiveVote(s: Core, b: Block, voter: ReplicaId, carriedFull: bool): (o: Outcome)
    requires Wired(s)
    ensures Wired(o.core)
    ensures o.core.storage.Keys == s.storage.Keys
  {
    if b !in s.storage || !s.storage[b].delivered then Outcome(s, Some(NotDelivered))
    else if voter in s.storage[b].voted then Outcome(s, None)
    else
      var s1 := AddVoter(s, b, voter);
      if voter != s.id || carriedFull then Outcome(s1, None)
      else
        var s2 := AddPart(s1, b, voter);
        var qc := s2.storage[b].selfQc.value;
        Outcome(if |qc.signers| >= s.nmajority then UpdateHqc(s2, b, qc) else s2, None)
  }

  // ---------- on_propose ----------

  function OpenSelfQc(s: Core, b: Block): (s': Core)
    requires Wired(s) && b in s.storage
    ensures Wired(s')
    ensures s'.storage.Keys == s.storage.Keys
  {
    var i := s.storage[b];
    if i.selfQc.Some? then s
    else
      assert InfoWired(s.storage, b);
      var i' := i.(selfQc := Some(Cert(b, {})));
      WiredAfter(s.storage, b, i');
      s.(storage := s.storage[b := i'])
  }

  function ProcessBlock(build: Build, s: Core, b: Block, adjustHeight: bool, carriedFull: bool): (o: Outcome)
    requires Wired(s) && b in s.storage
    ensures Wired(o.core)
    ensures o.core.storage.Keys == s.storage.Keys
  {
    var d := Deliver(OpenSelfQc(s, b), b);
    if d.error.Some? then d
    else
      var u := Update(build, d.core, b);
      if u.error.Some? then u
      else
        var h := u.core.storage[b].height;
        if adjustHeight && h <= u.core.vheight then Outcome(u.core, Some(NotAboveVheight))
        else
          var s1 := u.core.(vheight := if adjustHeight then h else u.core.vheight,
                            signed := u.core.signed + [b]);
          ReceiveVote(s1, b, s1.id, carriedFull)
  }

  /** The parents of a new block: the last piped block goes first when it is at least as high. */
  function ProposalParents(s: Core, parents: seq<Block>): (ps: seq<Block>)
    requires Wired(s) && parents != [] && forall p | p in parents :: p in s.storage
    ensures ps != [] && forall p | p in ps :: p in s.storage
  {
    if s.pipedQueue == [] then parents
    else
      var last := s.pipedQueue[|s.pipedQueue| - 1];
      assert last in s.pipedQueue;
      if s.storage[parents[0]].height <= s.storage[last].height then [last] + parents else parents
  }

  function NewBlock(s: Core, cmds: seq<Command>, parents: seq<Block>, extra: seq<nat>): Block {
    Block(parents, cmds, s.hqcCert, extra)
  }

  /** Store a block the replica has just built; height and qc_ref are set by the constructor. */
  function AddNew(s: Core, b: Block): (s': Core)
    requires Wired(s) && b.HasParent() && b.QcObj() == s.hqc
    requires forall p | p in b.parents :: p in s.storage
    ensures Wired(s') && b in s'.storage
  {
    if b in s.storage then s
    else
      var i := FRESH.(parents := b.parents, qcRef := Some(s.hqc), height := s.storage[b.parents[0]].height + 1);
      WiredAfter(s.storage, b, i);
      s.(storage := s.storage[b := i])
  }

  function Propose(build: Build, s: Core, cmds: seq<Command>, parents: seq<Block>, extra: seq<nat>,
                   carriedFull: bool): (o: Outcome)
    requires Wired(s) && s.hqcCert.obj == s.hqc
    requires forall p | p in parents :: p in s.storage
    ensures Wired(o.core)
  {
    if parents == [] then Outcome(s, Some(EmptyParents))
    else
      var s1 := s.(tails := s.tails - (set p | p in parents));
      var b := NewBlock(s1, cmds, ProposalParents(s1, parents), extra);
      ProcessBlock(build, AddNew(s1, b), b, true, carriedFull)
  }

  // ---------- constructor and on_init ----------

  function Init(id: ReplicaId, nmajority: nat, replicas: set<ReplicaId>, voteDisabled: bool): (s: Core)
    ensures Wired(s)
  {
    var g := Info([], Some(Genesis), 0, true, true, replicas, Some(Cert(Genesis, {})));
    Core(id, nmajority, map[Genesis := g], Genesis, Cert(Genesis, {}), Genesis, Genesis, 0, {Genesis},
         [], voteDisabled, [], [], [])
  }
}
