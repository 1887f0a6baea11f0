/** What a replica's handlers change, as far as pointers, votes and signatures go: what receiving a
  * proposal does to the vote, and exactly when a proposal throws. */
module Effects {
  import opened Blocks
  import opened Votes
  import opened ConsensusCore
  import opened Invariant
  import opened Preservation
  import opened Handlers
  import opened PlainRule

  // ---------- storage ----------

  /** Only what is stored, and which delivered blocks have children, differs. */
  predicate Kept(s: Core, s': Core) {
    s' == s.(storage := s'.storage, tails := s'.tails) && Grows(s.storage, s'.storage)
  }

  /** Certificates collected for blocks other than b are as before. */
  predicate CertsKept(st: Storage, st': Storage, b: Block) {
    forall x | x in st' && x != b && st'[x].selfQc.Some? :: x in st && st[x].selfQc == st'[x].selfQc
  }

  /** No block but b has been delivered. */
  ghost predicate DeliversOnly(st: Storage, st': Storage, b: Block) {
    forall y | DeliveredIn(st', y) :: y == b || DeliveredIn(st, y)
  }

  /** The storage has at most gained b; certificates are as before. */
  predicate Gains(st: Storage, st': Storage, b: Block) {
    st'.Keys <= st.Keys + {b} && CertsKept(st, st', b) && CertsKept(st, st', Genesis)
  }

  lemma FetchEffect(s: Core, b: Block)
    requires Wired(s)
    ensures Kept(s, Fetch(s, b)) && Gains(s.storage, Fetch(s, b).storage, b)
  {
  }

  lemma DeliverKept(s: Core, b: Block)
    requires Wired(s) && b in s.storage
    ensures Kept(s, Deliver(s, b).core)
    ensures DeliversOnly(s.storage, Deliver(s, b).core.storage, b)
  {
    hide StorageWired;
  }

  lemma DeliverCerts(s: Core, b: Block)
    requires Wired(s) && b in s.storage
    ensures forall x | x in s.storage :: Deliver(s, b).core.storage[x].selfQc == s.storage[x].selfQc
  {
    hide StorageWired;
  }

  lemma DeliverEffect(s: Core, b: Block)
    requires Wired(s) && b in s.storage
    ensures Kept(s, Deliver(s, b).core)
    ensures forall x | x in s.storage :: Deliver(s, b).core.storage[x].selfQc == s.storage[x].selfQc
    ensures Gains(s.storage, Deliver(s, b).core.storage, b)
    ensures DeliversOnly(s.storage, Deliver(s, b).core.storage, b)
  {
    hide Wired, Deliver, Kept, DeliversOnly;
    DeliverKept(s, b);
    DeliverCerts(s, b);
  }

  lemma VoteEffect(s: Core, b: Block, voter: ReplicaId, carriedFull: bool)
    requires Wired(s) && voter != s.id
    ensures Kept(s, ReceiveVote(s, b, voter, carriedFull).core)
    ensures Gains(s.storage, ReceiveVote(s, b, voter, carriedFull).core.storage, b)
  {
    hide StorageWired;
  }

  // ---------- update ----------

  function Higher(a: Block, b: Block): Block {
    if Height(b) > Height(a) then b else a
  }

  /** The last executed block is at least as high as the one b's certificate commits. */
  ghost predicate Executed(build: Build, s: Core, b: Block) {
    forall k | ChainHead(build, b.QcObj(), k) :: Height(s.bExec) >= Height(k)
  }

  /** What update does to the pointers. */
  ghost predicate Updated(build: Build, s: Core, s': Core, b: Block) {
    && s'.hqc == Higher(s.hqc, b.QcObj())
    && s'.hqcCert == (if Height(b.QcObj()) > Height(s.hqc) then b.Qc() else s.hqcCert)
    && s'.bLock == Higher(s.bLock, LockTarget(build, b))
    && (s'.bExec == s.bExec || s'.bExec == LockTarget(build, b).QcObj())
    && Executed(build, s', b)
    && s'.voteDisabled == s.voteDisabled && s'.id == s.id && s'.nmajority == s.nmajority
  }

  lemma HeadIsTarget(build: Build, b: Block, k: Block)
    requires ChainHead(build, b.QcObj(), k)
    ensures LockTarget(build, b).QcObj() == k && b.QcObj() != Genesis
  {
  }

  lemma TakesChain(build: Build, s: Core, b: Block, k: Block)
    requires ChainHead(build, b.QcObj(), k)
    ensures Height(PlainUpdate(build, s, b).bExec) >= Height(k)
  {
    HeadIsTarget(build, b, k);
    hide Height, PathAbove, MarkDecided, LogFinalities;
  }

  lemma PlainExecutes(build: Build, s: Core, b: Block)
    ensures Executed(build, PlainUpdate(build, s, b), b)
  {
    hide PlainUpdate, ChainHead, Height;
    forall k | ChainHead(build, b.QcObj(), k) ensures Height(PlainUpdate(build, s, b).bExec) >= Height(k) {
      TakesChain(build, s, b, k);
    }
  }

  lemma PlainPointers(build: Build, s: Core, b: Block)
    ensures var s' := PlainUpdate(build, s, b);
      Updated(build, s, s', b) && s'.signed == s.signed && s'.vheight == s.vheight
  {
    hide Height, PathAbove, LogFinalities, ChainHead, MarkDecided, LockTarget, Executed;
    PlainExecutes(build, s, b);
  }

  lemma PlainStorage(build: Build, s: Core, b: Block)
    ensures var st' := PlainUpdate(build, s, b).storage;
      && Gains(s.storage, st', b) && st'.Keys == s.storage.Keys && Grows(s.storage, st')
      && DeliversOnly(s.storage, st', b)
      && forall x | x in s.storage :: st'[x].selfQc == s.storage[x].selfQc
  {
    hide Height, PathAbove, LogFinalities, ChainHead, MarkDecided, Gains, LockTarget;
    var lock := LockTarget(build, b);
    assert TakeLock(TakeHqc(s, b.QcObj(), b.Qc()), lock).storage == s.storage;
    Marked(s.storage, PathAbove(lock.QcObj(), Height(s.bExec)), b);
    SameGains(s.storage, b);
  }

  lemma SameGains(st: Storage, b: Block)
    ensures Gains(st, st, b) && Grows(st, st) && DeliversOnly(st, st, b)
  {
  }

  lemma Marked(st: Storage, q: seq<Block>, b: Block)
    ensures var st' := MarkDecided(st, q);
      && Gains(st, st', b) && st'.Keys == st.Keys && Grows(st, st') && DeliversOnly(st, st', b)
      && (forall x | x in st :: st'[x].selfQc == st[x].selfQc)
  {
    hide StorageWired;
  }

  lemma UpdateEffect(c: Config, votes: seq<Vote>, s: Core, b: Block)
    requires CoreInv(c, votes, s) && Wired(s) && VotesOk(c, votes) && DeliveredIn(s.storage, b)
    ensures var o := Update(c.build, s, b);
      && o.error.None? && o.core == PlainUpdate(c.build, s, b)
      && CoreInv(c, votes, o.core) && Updated(c.build, s, o.core, b) && DeliveredIn(o.core.storage, b)
      && o.core.signed == s.signed && o.core.vheight == s.vheight
      && Gains(s.storage, o.core.storage, b) && o.core.storage.Keys == s.storage.Keys
      && Grows(s.storage, o.core.storage) && DeliversOnly(s.storage, o.core.storage, b)
  {
    hide CoreInv, Update, VotesOk, PlainUpdate, Updated, Gains, StorageWired, DeliversOnly;
    UpdateIsPlain(c, votes, s, b);
    UpdateInv(c, votes, s, b);
    PlainPointers(c.build, s, b);
    PlainStorage(c.build, s, b);
  }

  lemma ExecCommitted(c: Config, votes: seq<Vote>, s: Core)
    requires CoreInv(c, votes, s)
    ensures Committed(c, votes, s.bExec)
  {
  }

  /** What is executed up to the height of a committed block extends it. */
  lemma ExecutedExtends(c: Config, votes: seq<Vote>, s: Core, b: Block, k: Block)
    requires CoreInv(c, votes, s) && VotesOk(c, votes) && DeliveredIn(s.storage, b) && b != Genesis
    requires Executed(c.build, s, b) && ChainHead(c.build, b.QcObj(), k)
    ensures Extends(s.bExec, k)
  {
    hide CoreInv, VotesOk, StoreOk, Certified, CertOk, ChainHead;
    InvStore(c, votes, s);
    QcObjDelivered(c, votes, s.storage, s.bExec, b);
    HeadIsTarget(c.build, b, k);
    if k == Genesis {
      InvExec(c, votes, s);
    } else {
      assert CommittedBy(c, votes, k, b.QcObj());
      ExecCommitted(c, votes, s);
      CommittedTotal(c, votes, s.bExec, k);
      if Extends(k, s.bExec) {
        ExtendsHeight(k, s.bExec);
      }
    }
  }

  lemma Executes(c: Config, votes: seq<Vote>, s: Core, b: Block)
    requires CoreInv(c, votes, s) && b != Genesis
    ensures Extends(s.bExec, b) <==> b in s.log
  {
    hide CoreInv, Path;
    InvExec(c, votes, s);
    OnPath(s.bExec, b);
    if b in s.log {
      InPathAbove(s.bExec, 0, b);
    }
  }

  // ---------- receiving a proposal ----------

  /** update does not change the verdict of the vote rule: if it raises the lock, the block extends the new one. */
  lemma VerdictStands(c: Config, votes: seq<Vote>, s: Core, u: Core, b: Block)
    requires CoreInv(c, votes, s) && DeliveredIn(s.storage, b) && b != Genesis
    requires Updated(c.build, s, u, b) && u.vheight == s.vheight
    ensures VoteRule(u, b) <==> VoteRule(s, b)
  {
    hide CoreInv, StoreOk, Height, Certified, CertOk;
    InvStore(c, votes, s);
    QcObjDelivered(c, votes, s.storage, s.bExec, b);
    QcObjDelivered(c, votes, s.storage, s.bExec, b.QcObj());
    var lock := LockTarget(c.build, b);
    if c.build.ThreeStep? {
      ExtendsTransitive(b, b.QcObj(), lock);
    }
  }

  /** A replica shown b takes in its certificate and votes exactly if the vote rule allows it. */
  ghost predicate Shown(build: Build, s: Core, s': Core, b: Block) {
    && Updated(build, s, s', b)
    && s'.vheight == (if VoteRule(s, b) then Height(b) else s.vheight)
    && s'.signed == (if VoteRule(s, b) && !s.voteDisabled then s.signed + [b] else s.signed)
  }

  lemma ProposalEffect(c: Config, votes: seq<Vote>, s: Core, b: Block)
    requires CoreInv(c, votes, s) && Wired(s) && VotesOk(c, votes) && DeliveredIn(s.storage, b) && b != Genesis
    ensures var s' := ReceiveProposal(c.build, s, b).core;
      && Shown(c.build, s, s', b)
      && Gains(s.storage, s'.storage, b) && s'.storage.Keys == s.storage.Keys && Grows(s.storage, s'.storage)
      && DeliversOnly(s.storage, s'.storage, b)
  {
    hide DeliversOnly;
    hide CoreInv, Update, Opinion, VotesOk, StorageWired, StoreOk, Updated, Gains, VoteRule;
    UpdateEffect(c, votes, s, b);
    var u := Update(c.build, s, b).core;
    VerdictStands(c, votes, s, u, b);
    InvStore(c, votes, u);
    LocksAreLow(c, votes, u);
    OpinionIsVoteRule(c, votes, u, b);
    InvHeight(c, votes, u, b);
    ShownByFields(c.build, s, u, b, ReceiveProposal(c.build, s, b).core);
  }

  lemma LocksAreLow(c: Config, votes: seq<Vote>, s: Core)
    requires CoreInv(c, votes, s)
    ensures DeliveredIn(s.storage, s.bLock) && DeliveredIn(s.storage, s.bExec) && DeliveredIn(s.storage, s.hqc)
    ensures Height(s.bExec) <= Height(s.bLock) <= Height(s.hqc)
    ensures c.Valid() && Certified(c, votes, s.bLock) && CertOk(c, votes, s.hqcCert) && s.hqcCert.obj == s.hqc
    ensures s.pipedQueue == []
  {
  }

  lemma ShownByFields(build: Build, s: Core, u: Core, b: Block, s': Core)
    requires Updated(build, s, u, b)
    requires s' == u.(vheight := s'.vheight, signed := s'.signed)
    ensures Updated(build, s, s', b)
  {
  }

  // ---------- proposing ----------

  /** Storage with b in it as a proposer has it: delivered, with a certificate opened for the own signature. */
  ghost predicate Prepared(s: Core, d: Core, b: Block) {
    && Kept(s, d) && DeliveredIn(d.storage, b) && d.storage.Keys == s.storage.Keys + {b}
    && CertsKept(s.storage, d.storage, b) && DeliversOnly(s.storage, d.storage, b)
    && d.storage[b].selfQc == Some(Collected(s, b))
  }

  /** The certificate collected for b so far. */
  function Collected(s: Core, b: Block): Cert {
    if b in s.storage && s.storage[b].selfQc.Some? then s.storage[b].selfQc.value else Cert(b, {})
  }

  function PreparedCore(s: Core, b: Block): Core
    requires Wired(s) && b.HasParent() && b.QcObj() == s.hqc && forall p | p in b.parents :: p in s.storage
  {
    Deliver(OpenSelfQc(AddNew(s, b), b), b).core
  }

  lemma OpenEffect(s: Core, b: Block)
    requires Wired(s) && b.HasParent() && b.QcObj() == s.hqc && forall p | p in b.parents :: p in s.storage
    ensures var s1 := OpenSelfQc(AddNew(s, b), b);
      && Kept(s, s1) && s1.storage.Keys == s.storage.Keys + {b}
      && CertsKept(s.storage, s1.storage, b) && s1.storage[b].selfQc == Some(Collected(s, b))
      && DeliversOnly(s.storage, s1.storage, b)
  {
    hide StorageWired;
  }

  lemma PrepareEffect(c: Config, votes: seq<Vote>, s: Core, b: Block)
    requires CoreInv(c, votes, s) && Wired(s) && VotesOk(c, votes)
    requires b.HasParent() && b.QcObj() == s.hqc && Admissible(c, votes, b) && LowerParents(b)
    requires forall p | p in b.parents :: DeliveredIn(s.storage, p)
    ensures Deliver(OpenSelfQc(AddNew(s, b), b), b).error.None?
    ensures CoreInv(c, votes, PreparedCore(s, b)) && Prepared(s, PreparedCore(s, b), b)
  {
    hide CoreInv, VotesOk, StorageWired, AddNew, OpenSelfQc, Deliver, Admissible, LowerParents, StoreOk;
    AddNewInv(c, votes, s, b);
    var s1 := AddNew(s, b);
    OpenSelfQcInv(c, votes, s1, b);
    OpenEffect(s, b);
    var s2 := OpenSelfQc(s1, b);
    DeliverInv(c, votes, s2, b);
    DeliverEffect(s2, b);
    LocksAreLow(c, votes, s2);
    if s2.storage[b].delivered {
      DeliveredAlready(s2, b);
    } else {
      DeliverForm(s2, b);
    }
  }

  lemma DeliveredAlready(s: Core, b: Block)
    requires Wired(s) && b in s.storage && s.storage[b].delivered
    ensures Deliver(s, b) == Outcome(s, None)
  {
  }

  /** The whole of a proposal: prepare the block, update, and either throw or sign and count the signature. */
  lemma ProposeForm(c: Config, votes: seq<Vote>, s: Core, cmds: seq<Command>, t: Block, extra: seq<nat>, full: bool)
    requires CoreInv(c, votes, s) && Wired(s) && VotesOk(c, votes) && DeliveredIn(s.storage, t) && Extends(t, s.hqc)
    ensures var b := NewBlock(s, cmds, [t], extra);
      && b.QcObj() == s.hqc && b.parents == [t]
      && CoreInv(c, votes, PreparedCore(s, b)) && Wired(PreparedCore(s, b)) && Prepared(s, PreparedCore(s, b), b)
      && var u := PlainUpdate(c.build, PreparedCore(s, b), b);
      && CoreInv(c, votes, u) && Wired(u) && DeliveredIn(u.storage, b)
      && Propose(c.build, s, cmds, [t], extra, full) ==
         if Height(b) <= s.vheight then Outcome(u, Some(NotAboveVheight))
         else ReceiveVote(u.(vheight := Height(b), signed := u.signed + [b]), b, u.id, full)
  {
    hide CoreInv, VotesOk, StorageWired, AddNew, OpenSelfQc, Deliver, Update, PlainUpdate, StoreOk, ReceiveVote;
    var b := NewBlock(s, cmds, [t], extra);
    LocksAreLow(c, votes, s);
    NewBlockAdmissible(c, votes, s, cmds, [t], extra);
    PrepareEffect(c, votes, s, b);
    var d := PreparedCore(s, b);
    UpdateEffect(c, votes, d, b);
    var u := PlainUpdate(c.build, d, b);
    InvHeight(c, votes, u, b);
    ProposeIgnoresErasure(c, votes, s, b, full);
    var u' := u.(vheight := Height(b), signed := u.signed + [b]);
    if Height(b) <= s.vheight {
      ProcessThrows(c.build, AddNew(s, b), b, d, u, full);
    } else {
      ProcessSigns(c.build, AddNew(s, b), b, d, u, u', full);
    }
  }

  /** process_block, given what delivery and update leave. */
  lemma ProcessThrows(build: Build, s: Core, b: Block, d: Core, u: Core, full: bool)
    requires Wired(s) && b in s.storage && Deliver(OpenSelfQc(s, b), b) == Outcome(d, None)
    requires Update(build, d, b) == Outcome(u, None)
    requires b in u.storage && u.storage[b].height <= u.vheight
    ensures ProcessBlock(build, s, b, true, full) == Outcome(u, Some(NotAboveVheight))
  {
    hide ReceiveVote, Deliver, OpenSelfQc, Update, Wired;
  }

  lemma ProcessSigns(build: Build, s: Core, b: Block, d: Core, u: Core, u': Core, full: bool)
    requires Wired(s) && b in s.storage && Deliver(OpenSelfQc(s, b), b) == Outcome(d, None)
    requires Update(build, d, b) == Outcome(u, None)
    requires b in u.storage && u.storage[b].height > u.vheight
    requires u' == u.(vheight := u.storage[b].height, signed := u.signed + [b]) && Wired(u')
    ensures ProcessBlock(build, s, b, true, full) == ReceiveVote(u', b, u'.id, full)
  {
    hide ReceiveVote, Deliver, OpenSelfQc, Update, Wired;
  }

  /** Storage with another own signature for b. */
  ghost predicate Counted(st: Storage, st': Storage, b: Block, id: ReplicaId) {
    && Grows(st, st') && st'.Keys == st.Keys && CertsKept(st, st', b) && DeliversOnly(st, st', b)
    && b in st && st[b].selfQc.Some? && st'[b].selfQc.Some?
    && st'[b].selfQc.value.signers <= st[b].selfQc.value.signers + {id}
  }

  lemma AddVoterEffect(s: Core, b: Block, id: ReplicaId)
    requires Wired(s) && DeliveredIn(s.storage, b) && s.storage[b].selfQc.Some?
    ensures var s1 := AddVoter(s, b, id);
      && Counted(s.storage, s1.storage, b, id) && DeliveredIn(s1.storage, b)
      && s1 == s.(storage := s1.storage) && s1.storage[b].selfQc == s.storage[b].selfQc
  {
    hide StorageWired;
  }

  lemma AddPartEffect(s: Core, b: Block, id: ReplicaId)
    requires Wired(s) && DeliveredIn(s.storage, b) && s.storage[b].selfQc.Some?
    ensures var s1 := AddPart(s, b, id);
      && Counted(s.storage, s1.storage, b, id) && DeliveredIn(s1.storage, b)
      && s1 == s.(storage := s1.storage)
      && s1.storage[b].selfQc.value.signers == s.storage[b].selfQc.value.signers + {id}
  {
    hide StorageWired;
  }

  lemma CountedTwice(st: Storage, st1: Storage, st2: Storage, b: Block, id: ReplicaId)
    requires Counted(st, st1, b, id) && Counted(st1, st2, b, id)
    ensures Counted(st, st2, b, id)
  {
  }

  lemma CountedSelf(st: Storage, b: Block, id: ReplicaId)
    requires b in st && st[b].selfQc.Some?
    ensures Counted(st, st, b, id)
  {
  }

  lemma SameHqc(s: Core, b: Block, qc: Cert)
    requires Wired(s) && b in s.storage
    ensures var s' := UpdateHqc(s, b, qc);
      s' == s.(hqc := s'.hqc, hqcCert := s'.hqcCert) && (s'.hqc == s.hqc ==> s' == s || s'.hqc == b)
  {
  }

  /** Counting the own signature completes the certificate only if what was collected was short of nothing else. */
  lemma OwnVoteEffect(s: Core, b: Block, full: bool)
    requires Wired(s) && DeliveredIn(s.storage, b) && s.storage[b].selfQc.Some?
    ensures var o := ReceiveVote(s, b, s.id, full);
      && o.error.None? && Counted(s.storage, o.core.storage, b, s.id)
      && o.core == s.(storage := o.core.storage, hqc := o.core.hqc, hqcCert := o.core.hqcCert)
      && (|s.storage[b].selfQc.value.signers + {s.id}| < s.nmajority ==>
            o.core.hqc == s.hqc && o.core.hqcCert == s.hqcCert)
  {
    hide Wired, AddVoter, AddPart, UpdateHqc, Counted;
    CountedSelf(s.storage, b, s.id);
    if s.id !in s.storage[b].voted {
      AddVoterEffect(s, b, s.id);
      if !full {
        var s1 := AddVoter(s, b, s.id);
        AddPartEffect(s1, b, s.id);
        var s2 := AddPart(s1, b, s.id);
        CountedTwice(s.storage, s1.storage, s2.storage, b, s.id);
        SameHqc(s2, b, s2.storage[b].selfQc.value);
      }
    }
  }

  /** What proposing b does to storage and pointers, whether it throws or not.  The highest certificate stays unless
    * the own signature makes a quorum. */
  ghost predicate Proposed(build: Build, s: Core, s': Core, b: Block) {
    && DeliveredIn(s'.storage, b) && Grows(s.storage, s'.storage) && s'.storage.Keys == s.storage.Keys + {b}
    && CertsKept(s.storage, s'.storage, b) && DeliversOnly(s.storage, s'.storage, b)
    && s'.storage[b].selfQc.Some? && s'.storage[b].selfQc.value.signers <= Collected(s, b).signers + {s.id}
    && (|Collected(s, b).signers + {s.id}| < s.nmajority ==> s'.hqc == s.hqc && s'.hqcCert == s.hqcCert)
    && s'.bLock == Higher(s.bLock, LockTarget(build, b))
    && (s'.bExec == s.bExec || s'.bExec == LockTarget(build, b).QcObj())
    && Executed(build, s', b)
    && s'.voteDisabled == s.voteDisabled && s'.id == s.id && s'.nmajority == s.nmajority
  }

  lemma UpdatedProposed(build: Build, s: Core, d: Core, u: Core, b: Block)
    requires Prepared(s, d, b) && b.QcObj() == s.hqc && Updated(build, d, u, b)
    requires Grows(d.storage, u.storage) && u.storage.Keys == d.storage.Keys && DeliversOnly(d.storage, u.storage, b)
    requires forall x | x in d.storage :: u.storage[x].selfQc == d.storage[x].selfQc
    ensures Proposed(build, s, u, b) && u.hqc == s.hqc && u.hqcCert == s.hqcCert
    ensures u.storage[b].selfQc == Some(Collected(s, b))
  {
    hide Height, LockTarget;
  }

  lemma CountedProposed(build: Build, s: Core, u: Core, s': Core, b: Block)
    requires Proposed(build, s, u, b) && u.hqc == s.hqc && u.hqcCert == s.hqcCert
    requires u.storage[b].selfQc == Some(Collected(s, b)) && Counted(u.storage, s'.storage, b, s.id)
    requires s' == u.(storage := s'.storage, hqc := s'.hqc, hqcCert := s'.hqcCert, vheight := s'.vheight,
                      signed := s'.signed)
    requires |Collected(s, b).signers + {s.id}| < s.nmajority ==> s'.hqc == u.hqc && s'.hqcCert == u.hqcCert
    ensures Proposed(build, s, s', b)
  {
    hide Height, LockTarget;
  }

  /** A proposal delivers its block and takes in what it carries; it then throws exactly if the block is not
    * above the replica's last vote, and otherwise signs the block. */
  lemma ProposeEffect(c: Config, votes: seq<Vote>, s: Core, cmds: seq<Command>, t: Block, extra: seq<nat>, full: bool)
    requires CoreInv(c, votes, s) && Wired(s) && VotesOk(c, votes) && DeliveredIn(s.storage, t) && Extends(t, s.hqc)
    ensures var o, b := Propose(c.build, s, cmds, [t], extra, full), NewBlock(s, cmds, [t], extra);
      && Height(b) == Height(t) + 1 && b.QcObj() == s.hqc && b != Genesis
      && o.error == (if Height(t) + 1 <= s.vheight then Some(NotAboveVheight) else None)
      && Proposed(c.build, s, o.core, b)
      && (o.error.Some? ==> o.core.hqc == s.hqc)
      && (o.core.vheight, o.core.signed) ==
         (if o.error.Some? then (s.vheight, s.signed) else (Height(b), s.signed + [b]))
  {
    hide CoreInv, VotesOk, Wired, PlainUpdate, PreparedCore, ReceiveVote, Propose, StoreOk, Updated, Prepared,
         Proposed, Counted, CertsKept, Grows, DeliversOnly;
    var b := NewBlock(s, cmds, [t], extra);
    ProposeForm(c, votes, s, cmds, t, extra, full);
    var d := PreparedCore(s, b);
    var u := PlainUpdate(c.build, d, b);
    PlainPointers(c.build, d, b);
    PlainStorage(c.build, d, b);
    PreparedSame(s, d, b);
    UpdatedProposed(c.build, s, d, u, b);
    UpdatedSame(c.build, d, u, b);
    if Height(b) > s.vheight {
      var s3 := u.(vheight := Height(b), signed := u.signed + [b]);
      SigningKeepsWires(u, s3);
      OwnVoteEffect(s3, b, full);
      CountedProposed(c.build, s, u, ReceiveVote(s3, b, s3.id, full).core, b);
    }
  }

  lemma SigningKeepsWires(s: Core, s': Core)
    requires Wired(s) && s' == s.(vheight := s'.vheight, signed := s'.signed)
    ensures Wired(s')
  {
  }

  lemma PreparedSame(s: Core, d: Core, b: Block)
    requires Prepared(s, d, b)
    ensures d.vheight == s.vheight && d.signed == s.signed && d.id == s.id && d.nmajority == s.nmajority
  {
  }

  lemma UpdatedSame(build: Build, s: Core, s': Core, b: Block)
    requires Updated(build, s, s', b)
    ensures s'.id == s.id && s'.nmajority == s.nmajority
  {
  }
}
