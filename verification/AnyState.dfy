/** What the handlers do in every state whose pointers lead to stored blocks, reached or not: with blocks in the
  * pipeline, with certificates that are not checked, and at heights the replica has voted past. */
module AnyState {
  import opened Blocks
  import opened Votes
  import opened ConsensusCore
  import opened Invariant
  import opened Effects

  // ---------- delivery ----------

  /** A parent that delivery accepts. */
  predicate AtHand(s: Core, p: Block) {
    p in s.storage && (p in s.pipedQueue || s.storage[p].delivered)
  }

  predicate CanDeliver(s: Core, b: Block) {
    b.HasParent() && (forall p | p in b.Parents() :: AtHand(s, p)) && b.QcObj() in s.storage
  }

  /** Why a delivery throws: the first obstacle in the order parents, no parent at all, certified block. */
  function Obstacle(s: Core, b: Block): Option<Error> {
    if exists p | p in b.Parents() :: !AtHand(s, p) then Some(NotDelivered)
    else if !b.HasParent() then Some(DanglingRead)
    else if b.QcObj() !in s.storage then Some(QcNotFetched)
    else None
  }

  /** The block's parents up to the first one that is not at hand. */
  predicate AtHandPrefix(s: Core, b: Block, ps: seq<Block>) {
    && ps <= b.Parents() && (forall p | p in ps :: AtHand(s, p))
    && (|ps| < |b.Parents()| ==> !AtHand(s, b.Parents()[|ps|]))
  }

  /** Delivery succeeds exactly with every parent stored and delivered or piped, at least one of them, and the certified
    * block stored.  It then fills in the links and the height, and b replaces its parents among the tails.  A failed
    * delivery leaves no more than the parents found and, if only the certified block is missing, the height. */
  lemma DeliverExactly(s: Core, b: Block)
    requires Wired(s) && b in s.storage
    ensures var o, was := Deliver(s, b), s.storage[b];
      && o.error == (if was.delivered then None else Obstacle(s, b))
      && (o.error.None? <==> was.delivered || CanDeliver(s, b))
      && o.core == s.(storage := s.storage[b := o.core.storage[b]], tails := o.core.tails)
      && var i := o.core.storage[b];
      && (was.delivered ==> o.core == s)
      && (!was.delivered && o.error.None? ==>
            && b.Parents()[0] in s.storage
            && i == was.(parents := b.Parents(), qcRef := Some(b.QcObj()), delivered := true,
                         height := s.storage[b.Parents()[0]].height + 1)
            && forall x :: x in o.core.tails <==> x == b || (x in s.tails && x !in b.Parents()))
      && (o.error.Some? ==>
            && o.core.tails == s.tails && i == was.(parents := i.parents, height := i.height)
            && AtHandPrefix(s, b, i.parents)
            && (o.error == Some(QcNotFetched) ==>
                  b.HasParent() && b.parents[0] in s.storage && i.height == s.storage[b.parents[0]].height + 1)
            && (o.error != Some(QcNotFetched) ==> i.height == was.height))
  {
    hide StorageWired, InfoWired, ResolvedParents;
    var ps := ResolvedParents(s, b.Parents());
    FoundPrefix(s, b.Parents());
    if ps == b.Parents() {
      forall p | p in b.Parents() ensures AtHand(s, p) {
      }
      if b.HasParent() {
        assert b.Parents()[0] in b.Parents();
      }
    } else {
      assert b.Parents()[|ps|] in b.Parents();
    }
  }

  lemma {:induction false} FoundPrefix(s: Core, ps: seq<Block>)
    ensures var rs := ResolvedParents(s, ps);
      rs <= ps && (forall p | p in rs :: AtHand(s, p)) && (|rs| < |ps| ==> !AtHand(s, ps[|rs|]))
  {
    if ps != [] && Resolvable(s, ps[0]) {
      FoundPrefix(s, ps[1..]);
      assert ps == [ps[0]] + ps[1..];
    }
  }

  // ---------- votes ----------

  /** What a replica collects for b when it adds its own signature. */
  function WithOwn(s: Core, b: Block): Cert {
    Collected(s, b).(signers := Collected(s, b).signers + {s.id})
  }

  /** A vote for a delivered block is noted once for each voter.  Only the replica's own, and only while the certificate
    * the block carries is not full, goes into the certificate collected for the block, which becomes the highest one
    * exactly when it then has a quorum and its block is the taller. */
  lemma VoteExactly(s: Core, b: Block, voter: ReplicaId, full: bool)
    requires Wired(s)
    ensures var o := ReceiveVote(s, b, voter, full);
      && (o.error == if DeliveredIn(s.storage, b) then None else Some(NotDelivered))
      && (!DeliveredIn(s.storage, b) || voter in s.storage[b].voted ==> o.core == s)
      && (DeliveredIn(s.storage, b) && voter !in s.storage[b].voted ==>
            var was, own := s.storage[b], voter == s.id && !full;
            var i := was.(voted := was.voted + {voter}, selfQc := if own then Some(WithOwn(s, b)) else was.selfQc);
            var raises := own && |WithOwn(s, b).signers| >= s.nmajority && was.height > s.storage[s.hqc].height;
            o.core == s.(storage := s.storage[b := i],
                         hqc := if raises then b else s.hqc, hqcCert := if raises then WithOwn(s, b) else s.hqcCert))
  {
    hide Wired, AddVoter, AddPart;
    if DeliveredIn(s.storage, b) && voter !in s.storage[b].voted {
      AddVoterIs(s, b, voter);
      var s1 := AddVoter(s, b, voter);
      if voter == s.id && !full {
        AddPartIs(s1, b, voter);
        assert Collected(s1, b) == Collected(s, b);
      }
    }
  }

  lemma AddVoterIs(s: Core, b: Block, voter: ReplicaId)
    requires Wired(s) && b in s.storage
    ensures AddVoter(s, b, voter) ==
      s.(storage := s.storage[b := s.storage[b].(voted := s.storage[b].voted + {voter})])
  {
    hide StorageWired, InfoWired;
  }

  lemma AddPartIs(s: Core, b: Block, voter: ReplicaId)
    requires Wired(s) && b in s.storage
    ensures AddPart(s, b, voter) ==
      s.(storage := s.storage[b := s.storage[b].(selfQc :=
           Some(Collected(s, b).(signers := Collected(s, b).signers + {voter})))])
  {
    hide StorageWired, InfoWired;
  }

  /** At start every known replica counts as having voted for genesis: no vote of theirs for it has an effect. */
  lemma GenesisVoted(id: ReplicaId, nmajority: nat, replicas: set<ReplicaId>, disabled: bool, voter: ReplicaId,
                     full: bool)
    requires voter in replicas
    ensures var s := ConsensusCore.Init(id, nmajority, replicas, disabled);
      ReceiveVote(s, Genesis, voter, full) == Outcome(s, None)
  {
  }

  // ---------- process_block ----------

  /** Neither votes nor delivers: at most decisions differ in storage. */
  ghost predicate OnlyDecides(s: Core, o: Outcome) {
    && o.core.vheight == s.vheight && o.core.signed == s.signed && o.core.id == s.id && o.core.tails == s.tails
    && o.core.storage.Keys == s.storage.Keys
    && o.error in {None, Some(DanglingRead), Some(SafetyBreached)}
    && forall x | x in s.storage :: o.core.storage[x] == s.storage[x].(decision := o.core.storage[x].decision)
  }

  lemma CommitWired(s: Core, b: Block)
    requires Wired(s) && b in s.storage
    ensures OnlyDecides(s, Commit(s, b))
  {
    hide StorageWired, WalkDown, Passed, Finalities;
  }

  /** The certified block of a stored block is stored. */
  lemma CertifiedStored(st: Storage, b: Block)
    requires StorageWired(st) && b in st && st[b].qcRef.Some?
    ensures st[b].qcRef.value in st
  {
    assert InfoWired(st, b);
  }

  /** Other pointers make no difference. */
  lemma DecidesFrom(s: Core, s1: Core, o: Outcome)
    requires s1 == s.(hqc := s1.hqc, hqcCert := s1.hqcCert, bLock := s1.bLock) && OnlyDecides(s1, o)
    ensures OnlyDecides(s, o)
  {
  }

  lemma NothingDecided(s: Core, o: Outcome)
    requires o.core == s.(hqc := o.core.hqc, hqcCert := o.core.hqcCert, bLock := o.core.bLock)
    requires o.error in {None, Some(DanglingRead)}
    ensures OnlyDecides(s, o)
  {
  }

  lemma LockWired(s: Core, blk1: Block, linked: Option<bool>)
    requires Wired(s) && blk1 in s.storage
    ensures OnlyDecides(s, LockAndCommit(s, blk1, linked))
  {
    hide StorageWired, Commit, OnlyDecides;
    var s1, o := RaiseLock(s, blk1), LockAndCommit(s, blk1, linked);
    if s.storage[blk1].qcRef.Some? {
      CertifiedStored(s.storage, blk1);
      var blk := s.storage[blk1].qcRef.value;
      CommitWired(s1, blk);
      DecidesFrom(s, s1, Commit(s1, blk));
      if o != Commit(s1, blk) {
        NothingDecided(s, o);
      }
    } else {
      NothingDecided(s, o);
    }
  }

  lemma UpdateWired(build: Build, s: Core, b: Block)
    requires Wired(s) && b in s.storage
    ensures OnlyDecides(s, Update(build, s, b))
  {
    hide StorageWired, LockAndCommit, OnlyDecides;
    var o := Update(build, s, b);
    if s.storage[b].qcRef.None? {
      NothingDecided(s, o);
    } else {
      CertifiedStored(s.storage, b);
      var blk2 := s.storage[b].qcRef.value;
      var s1 := UpdateHqc(s, blk2, b.Qc());
      if s.storage[blk2].decision {
        NothingDecided(s, o);
      } else if build.TwoStep? {
        LockWired(s1, blk2, Some(true));
        DecidesFrom(s, s1, o);
      } else if s.storage[blk2].qcRef.None? {
        NothingDecided(s, o);
      } else {
        CertifiedStored(s.storage, blk2);
        var blk1 := s.storage[blk2].qcRef.value;
        if s.storage[blk1].decision {
          NothingDecided(s, o);
        } else {
          var ps := s.storage[blk2].parents;
          LockWired(s1, blk1, if ps == [] then None else Some(ps[0] == blk1));
          DecidesFrom(s, s1, o);
        }
      }
    }
  }

  lemma OpenWired(s: Core, b: Block)
    requires Wired(s) && b in s.storage
    ensures var s1 := OpenSelfQc(s, b);
      && s1.vheight == s.vheight && s1.signed == s.signed && s1.id == s.id
      && s1 == s.(storage := s.storage[b := s.storage[b].(selfQc := Some(Collected(s, b)))])
  {
    hide StorageWired, InfoWired;
    assert s.storage[b := s.storage[b]] == s.storage;
  }

  /** A piped block is processed without touching the last voted height and whatever that height is; a normal one only
    * above it.  Unless it throws, the block ends delivered, signed once, and with the own vote noted.  A throw leaves
    * the signatures and the last voted height alone. */
  lemma ProcessEffect(build: Build, s: Core, b: Block, adjust: bool, full: bool)
    requires Wired(s) && b in s.storage
    ensures var o := ProcessBlock(build, s, b, adjust, full);
      && b in o.core.storage
      && (!adjust ==> o.core.vheight == s.vheight && o.error != Some(NotAboveVheight))
      && (o.error.None? ==>
            && o.core.storage[b].delivered && o.core.signed == s.signed + [b]
            && s.id in o.core.storage[b].voted
            && (adjust ==> o.core.vheight == o.core.storage[b].height > s.vheight))
      && (o.error.Some? ==> o.core.signed == s.signed && o.core.vheight == s.vheight)
      && (o.error == Some(NotAboveVheight) ==> o.core.storage[b].height <= s.vheight)
  {
    hide Wired, Deliver, Update, ReceiveVote, OpenSelfQc, Obstacle, CanDeliver;
    var s1 := OpenSelfQc(s, b);
    OpenWired(s, b);
    var d := Deliver(s1, b);
    DeliverFields(s1, b);
    if d.error.None? {
      var u := Update(build, d.core, b);
      UpdateWired(build, d.core, b);
      if u.error.None? {
        var h := u.core.storage[b].height;
        if !adjust || h > u.core.vheight {
          var s2 := u.core.(vheight := if adjust then h else u.core.vheight, signed := u.core.signed + [b]);
          SigningKeepsWires(u.core, s2);
          VoteFields(s2, b, full);
        }
      }
    }
  }

  lemma DeliverFields(s: Core, b: Block)
    requires Wired(s) && b in s.storage
    ensures var o := Deliver(s, b);
      && o.core.vheight == s.vheight && o.core.signed == s.signed && o.core.id == s.id
      && o.error != Some(NotAboveVheight)
      && (o.error.None? ==> o.core.storage[b].delivered)
  {
    hide Wired, Deliver, CanDeliver, AtHandPrefix;
    DeliverExactly(s, b);
  }

  lemma VoteFields(s: Core, b: Block, full: bool)
    requires Wired(s) && DeliveredIn(s.storage, b)
    ensures var o := ReceiveVote(s, b, s.id, full);
      && o.error.None? && o.core.vheight == s.vheight && o.core.signed == s.signed
      && o.core.storage[b] == s.storage[b].(voted := s.storage[b].voted + {s.id}, selfQc := o.core.storage[b].selfQc)
  {
    hide Wired, ReceiveVote;
    VoteExactly(s, b, s.id, full);
    assert s.storage[b].voted + {s.id} == s.storage[b].voted || s.id !in s.storage[b].voted;
  }

  /** process_block of a piped block, from what delivery leaves. */
  lemma PipedForm(build: Build, s: Core, b: Block, full: bool, d: Outcome)
    requires Wired(s) && b in s.storage && d == Deliver(OpenSelfQc(s, b), b)
    ensures var o := ProcessBlock(build, s, b, false, full);
      && b in d.core.storage && (d.error.Some? ==> o == d)
      && (d.error.None? ==>
            var u := Update(build, d.core, b);
            && (u.error.Some? ==> o == u)
            && (u.error.None? ==>
                  var s1 := u.core.(signed := u.core.signed + [b]);
                  Wired(s1) && o == ReceiveVote(s1, b, s1.id, full)))
  {
    hide StorageWired, Deliver, Update, ReceiveVote, OpenSelfQc;
    if d.error.None? {
      var u := Update(build, d.core, b);
      assert u.core.(vheight := u.core.vheight, signed := u.core.signed + [b])
          == u.core.(signed := u.core.signed + [b]);
    }
  }

  /** The same of a normal block. */
  lemma NormalForm(build: Build, s: Core, b: Block, full: bool, d: Outcome)
    requires Wired(s) && b in s.storage && d == Deliver(OpenSelfQc(s, b), b)
    ensures var o := ProcessBlock(build, s, b, true, full);
      && b in d.core.storage && (d.error.Some? ==> o == d)
      && (d.error.None? ==>
            var u := Update(build, d.core, b);
            && b in u.core.storage && (u.error.Some? ==> o == u)
            && (u.error.None? ==>
                  var h := u.core.storage[b].height;
                  var s1 := u.core.(vheight := h, signed := u.core.signed + [b]);
                  && Wired(s1)
                  && (h <= u.core.vheight ==> o.error == Some(NotAboveVheight))
                  && (h > u.core.vheight ==> o == ReceiveVote(s1, b, s1.id, full))))
  {
    hide StorageWired, Deliver, Update, ReceiveVote, OpenSelfQc;
  }

  /** Processing b as a piped block is processing it as a normal one from vheight 0, with the vheight put back. */
  lemma PipedIsNormal(build: Build, s: Core, b: Block, full: bool)
    requires Wired(s) && Wired(s.(vheight := 0)) && b in s.storage
    ensures var p, o := ProcessBlock(build, s, b, false, full), ProcessBlock(build, s.(vheight := 0), b, true, full);
      o.error != Some(NotAboveVheight) ==> p == o.(core := o.core.(vheight := s.vheight))
  {
    hide Wired, Deliver, Update, ReceiveVote, OpenSelfQc, ProcessBlock;
    var z := s.(vheight := 0);
    var s1 := OpenSelfQc(s, b);
    var d := Deliver(s1, b);
    OpenAtHeight(s, b, 0);
    DeliverAtHeight(s1, b, 0);
    DeliverFields(s1, b);
    PipedForm(build, s, b, full, d);
    NormalForm(build, z, b, full, d.(core := d.core.(vheight := 0)));
    if d.error.None? {
      var u := Update(build, d.core, b);
      UpdateAtHeight(build, d.core, b, 0);
      UpdateWired(build, d.core, b);
      if u.error.None? {
        var s2, h := u.core.(signed := u.core.signed + [b]), u.core.storage[b].height;
        VoteAtHeight(s2, b, h, full);
        VoteKeepsHeight(s2, b, full);
      }
    }
  }

  lemma VoteKeepsHeight(s: Core, b: Block, full: bool)
    requires Wired(s)
    ensures ReceiveVote(s, b, s.id, full).core.vheight == s.vheight
  {
    hide Wired, ReceiveVote;
    VoteExactly(s, b, s.id, full);
  }

  lemma AtHeight(s: Core, v: nat)
    requires Wired(s)
    ensures Wired(s.(vheight := v)) && StorageWired(s.storage)
  {
  }

  lemma OpenAtHeight(s: Core, b: Block, v: nat)
    requires Wired(s) && b in s.storage
    ensures Wired(s.(vheight := v))
    ensures OpenSelfQc(s.(vheight := v), b) == OpenSelfQc(s, b).(vheight := v)
    ensures OpenSelfQc(s, b).vheight == s.vheight && OpenSelfQc(s, b).id == s.id
  {
    hide StorageWired, InfoWired;
  }

  lemma DeliverAtHeight(s: Core, b: Block, v: nat)
    requires Wired(s) && b in s.storage
    ensures Wired(s.(vheight := v))
    ensures Deliver(s.(vheight := v), b) == Deliver(s, b).(core := Deliver(s, b).core.(vheight := v))
  {
    hide StorageWired;
    SameFound(s, s.(vheight := v), b.Parents());
  }

  lemma {:induction false} SameFound(s: Core, s': Core, ps: seq<Block>)
    requires s.storage == s'.storage && s.pipedQueue == s'.pipedQueue
    ensures ResolvedParents(s, ps) == ResolvedParents(s', ps)
  {
    if ps != [] {
      SameFound(s, s', ps[1..]);
    }
  }

  lemma CommitAtHeight(s: Core, b: Block, v: nat)
    requires Wired(s) && b in s.storage
    ensures Wired(s.(vheight := v))
    ensures Commit(s.(vheight := v), b) == Commit(s, b).(core := Commit(s, b).core.(vheight := v))
  {
    hide StorageWired, WalkDown, Passed, Finalities, MarkDecided;
  }

  lemma LockAtHeight(s: Core, blk1: Block, linked: Option<bool>, v: nat)
    requires Wired(s) && blk1 in s.storage
    ensures Wired(s.(vheight := v))
    ensures LockAndCommit(s.(vheight := v), blk1, linked)
         == LockAndCommit(s, blk1, linked).(core := LockAndCommit(s, blk1, linked).core.(vheight := v))
  {
    hide Wired, StorageWired, Commit, RaiseLock;
    AtHeight(s, v);
    RaiseAtHeight(s, blk1, v);
    if s.storage[blk1].qcRef.Some? {
      CertifiedStored(s.storage, blk1);
      CommitAtHeight(RaiseLock(s, blk1), s.storage[blk1].qcRef.value, v);
    }
  }

  lemma RaiseAtHeight(s: Core, b: Block, v: nat)
    requires Wired(s) && Wired(s.(vheight := v)) && b in s.storage
    ensures RaiseLock(s.(vheight := v), b) == RaiseLock(s, b).(vheight := v)
    ensures RaiseLock(s, b).storage == s.storage
  {
    hide StorageWired;
  }

  lemma UpdateAtHeight(build: Build, s: Core, b: Block, v: nat)
    requires Wired(s) && b in s.storage
    ensures Wired(s.(vheight := v))
    ensures Update(build, s.(vheight := v), b) == Update(build, s, b).(core := Update(build, s, b).core.(vheight := v))
  {
    hide Wired, StorageWired, LockAndCommit, UpdateHqc;
    AtHeight(s, v);
    if s.storage[b].qcRef.Some? {
      CertifiedStored(s.storage, b);
      var blk2 := s.storage[b].qcRef.value;
      HqcAtHeight(s, blk2, b.Qc(), v);
      var s1 := UpdateHqc(s, blk2, b.Qc());
      if build.TwoStep? {
        LockAtHeight(s1, blk2, Some(true), v);
      } else if s.storage[blk2].qcRef.Some? {
        CertifiedStored(s.storage, blk2);
        var ps := s.storage[blk2].parents;
        LockAtHeight(s1, s.storage[blk2].qcRef.value,
                     if ps == [] then None else Some(ps[0] == s.storage[blk2].qcRef.value), v);
      }
    }
  }

  lemma HqcAtHeight(s: Core, b: Block, qc: Cert, v: nat)
    requires Wired(s) && Wired(s.(vheight := v)) && b in s.storage
    ensures UpdateHqc(s.(vheight := v), b, qc) == UpdateHqc(s, b, qc).(vheight := v)
    ensures UpdateHqc(s, b, qc).storage == s.storage
  {
    hide StorageWired;
  }

  lemma VoteAtHeight(s: Core, b: Block, v: nat, full: bool)
    requires Wired(s)
    ensures Wired(s.(vheight := v))
    ensures ReceiveVote(s.(vheight := v), b, s.id, full)
         == ReceiveVote(s, b, s.id, full).(core := ReceiveVote(s, b, s.id, full).core.(vheight := v))
  {
    hide StorageWired, ReceiveVote;
    VoteExactly(s, b, s.id, full);
    VoteExactly(s.(vheight := v), b, s.id, full);
  }

  // ---------- commit ----------

  /** chain leads to b along parents[0], lowest first: each block but the first is above height h and the child of the
    * one before. */
  predicate DownTo(st: Storage, b: Block, h: nat, chain: seq<Block>) {
    && chain != [] && chain[|chain| - 1] == b
    && forall i {:trigger chain[i]} | 0 < i < |chain| ::
         && chain[i] in st && st[chain[i]].height > h
         && st[chain[i]].parents != [] && st[chain[i]].parents[0] == chain[i - 1]
  }

  /** The last block of a chain of two or more, and the rest. */
  lemma DownStep(st: Storage, b: Block, h: nat, chain: seq<Block>)
    requires DownTo(st, b, h, chain) && |chain| > 1
    ensures var k := |chain| - 1;
      && chain[k] == b && b in st && st[b].height > h && st[b].parents != [] && st[b].parents[0] == chain[k - 1]
      && DownTo(st, chain[k - 1], h, chain[..k])
  {
    var k := |chain| - 1;
    assert chain[k] in st && st[chain[k]].height > h;
    var init := chain[..k];
    forall i {:trigger init[i]} | 0 < i < |init|
      ensures init[i] in st && st[init[i]].height > h && st[init[i]].parents != []
      ensures st[init[i]].parents[0] == init[i - 1]
    {
      assert chain[i] == init[i];
    }
  }

  lemma {:induction false} WalksDown(st: Storage, b: Block, h: nat, chain: seq<Block>)
    requires StorageWired(st) && b in st && DownTo(st, b, h, chain)
    ensures chain[0] in st
    ensures WalkDown(st, b, h) == WalkDown(st, chain[0], h)
    ensures Passed(st, b, h) == Passed(st, chain[0], h) + chain[1..]
    decreases |chain|
  {
    var k := |chain| - 1;
    if k == 0 {
      assert chain[1..] == [];
    } else {
      DownStep(st, b, h, chain);
      WalkStep(st, b, h);
      hide StorageWired, DownTo, WalkDown, Passed;
      WalksDown(st, chain[k - 1], h, chain[..k]);
      LastAppended(chain, Passed(st, chain[0], h));
    }
  }

  lemma LastAppended(chain: seq<Block>, q: seq<Block>)
    requires |chain| > 1
    ensures q + chain[..|chain| - 1][1..] + [chain[|chain| - 1]] == q + chain[1..]
  {
  }

  lemma WalkStep(st: Storage, b: Block, h: nat)
    requires StorageWired(st) && b in st && st[b].height > h && st[b].parents != []
    ensures st[b].parents[0] in st
    ensures WalkDown(st, b, h) == WalkDown(st, st[b].parents[0], h)
    ensures Passed(st, b, h) == Passed(st, st[b].parents[0], h) + [b]
  {
    assert InfoWired(st, b);
  }

  /** Commit walks from b down to the height of the last executed block.  If the walk ends at that block, exactly the
    * blocks passed are executed and decided, in order, and b is the last executed one.  If it ends at another, "safety
    * breached" is thrown and nothing changes. */
  lemma CommitExactly(s: Core, b: Block, chain: seq<Block>)
    requires Wired(s) && b in s.storage
    requires DownTo(s.storage, b, s.storage[s.bExec].height, chain)
    requires chain[0] in s.storage && s.storage[chain[0]].height <= s.storage[s.bExec].height
    ensures var o := Commit(s, b);
      if chain[0] != s.bExec then o == Outcome(s, Some(SafetyBreached))
      else
        && o.error.None? && o.core.bExec == b && o.core.log == s.log + chain[1..] && s.decided <= o.core.decided
        && o.core == s.(storage := o.core.storage, log := o.core.log, decided := o.core.decided, bExec := b)
        && o.core.storage.Keys == s.storage.Keys
        && forall x | x in s.storage ::
             o.core.storage[x] == s.storage[x].(decision := s.storage[x].decision || x in chain[1..])
  {
    hide StorageWired, Finalities, WalkDown, Passed, DownTo;
    assert chain != [] by {
      ChainThere(s.storage, b, s.storage[s.bExec].height, chain);
    }
    WalksDown(s.storage, b, s.storage[s.bExec].height, chain);
    WalkEnds(s.storage, chain[0], s.storage[s.bExec].height);
    assert [] + chain[1..] == chain[1..];
  }

  lemma ChainThere(st: Storage, b: Block, h: nat, chain: seq<Block>)
    requires DownTo(st, b, h, chain)
    ensures chain != []
  {
  }

  lemma WalkEnds(st: Storage, b: Block, h: nat)
    requires StorageWired(st) && b in st && st[b].height <= h
    ensures WalkDown(st, b, h) == Some(b) && Passed(st, b, h) == []
  {
  }

  // ---------- receiving a proposal ----------

  /** A proposal for a block that is not delivered throws and changes nothing; one for a delivered block does not throw
    * that. */
  lemma ProposalNeedsDelivery(build: Build, s: Core, b: Block)
    requires Wired(s) && b in s.storage
    ensures !s.storage[b].delivered ==> ReceiveProposal(build, s, b) == Outcome(s, Some(NotDelivered))
    ensures s.storage[b].delivered ==> ReceiveProposal(build, s, b).error != Some(NotDelivered)
  {
    hide StorageWired, Update, Opinion;
    if s.storage[b].delivered {
      UpdateWired(build, s, b);
    }
  }

  // ---------- the parents of a new block ----------

  /** A new block keeps all the parents it is given, in order, and stands above both the first of them and the last
    * piped block, which becomes the first parent unless the given one is strictly taller. */
  lemma NewBlockOnPiped(s: Core, parents: seq<Block>)
    requires Wired(s) && parents != [] && forall p | p in parents :: p in s.storage
    ensures var ps := ProposalParents(s, parents);
      && ps != [] && ps[0] in s.storage && parents[0] in s.storage
      && |parents| <= |ps| <= |parents| + 1 && ps[|ps| - |parents|..] == parents
      && s.storage[ps[0]].height >= s.storage[parents[0]].height
      && (s.pipedQueue == [] ==> ps == parents)
      && (s.pipedQueue != [] ==>
            var last := s.pipedQueue[|s.pipedQueue| - 1];
            && last in s.storage && s.storage[ps[0]].height >= s.storage[last].height
            && ps[0] == (if s.storage[parents[0]].height > s.storage[last].height then parents[0] else last)
            && (s.storage[parents[0]].height > s.storage[last].height <==> ps == parents))
  {
    if s.pipedQueue != [] {
      var last := s.pipedQueue[|s.pipedQueue| - 1];
      assert last in s.pipedQueue;
      assert ([last] + parents)[1..] == parents;
    }
  }

  lemma ProcessTails(build: Build, s: Core, b: Block, full: bool)
    requires Wired(s) && b in s.storage
    ensures forall x | x in ProcessBlock(build, s, b, true, full).core.tails :: x in s.tails || x == b
  {
    hide Wired, Deliver, Update, ReceiveVote, OpenSelfQc, ProcessBlock;
    OpenWired(s, b);
    var s1 := OpenSelfQc(s, b);
    var d := Deliver(s1, b);
    DeliverTails(s1, b);
    NormalForm(build, s, b, full, d);
    if d.error.None? {
      UpdateWired(build, d.core, b);
      var u := Update(build, d.core, b);
      if u.error.None? {
        var h := u.core.storage[b].height;
        if h <= u.core.vheight {
          ThrowTails(build, s, b, full);
        } else {
          VoteTails(u.core.(vheight := h, signed := u.core.signed + [b]), b, full);
        }
      }
    }
  }

  lemma ThrowTails(build: Build, s: Core, b: Block, full: bool)
    requires Wired(s) && b in s.storage
    requires ProcessBlock(build, s, b, true, full).error == Some(NotAboveVheight)
    ensures var d := Deliver(OpenSelfQc(s, b), b);
      d.error.None? && ProcessBlock(build, s, b, true, full).core == Update(build, d.core, b).core
  {
    hide Wired, Deliver, Update, ReceiveVote, OpenSelfQc;
    OpenWired(s, b);
    DeliverFields(OpenSelfQc(s, b), b);
    var d := Deliver(OpenSelfQc(s, b), b);
    if d.error.None? {
      UpdateWired(build, d.core, b);
      NormalForm(build, s, b, full, d);
      var u := Update(build, d.core, b);
      if u.error.None? && u.core.storage[b].height > u.core.vheight {
        VoteNotThrows(u.core.(vheight := u.core.storage[b].height, signed := u.core.signed + [b]), b, full);
      }
    }
  }

  lemma VoteNotThrows(s: Core, b: Block, full: bool)
    requires Wired(s)
    ensures ReceiveVote(s, b, s.id, full).error != Some(NotAboveVheight)
  {
  }

  lemma VoteTails(s: Core, b: Block, full: bool)
    requires Wired(s)
    ensures ReceiveVote(s, b, s.id, full).core.tails == s.tails
  {
    hide Wired, ReceiveVote;
    VoteExactly(s, b, s.id, full);
  }

  lemma DeliverTails(s: Core, b: Block)
    requires Wired(s) && b in s.storage
    ensures forall x | x in Deliver(s, b).core.tails :: x in s.tails || x == b
  {
    hide Wired, Deliver, CanDeliver, Obstacle, AtHandPrefix;
    DeliverExactly(s, b);
  }

  lemma NotOwnParent(b: Block, parents: seq<Block>)
    requires b.HasParent() && |parents| <= |b.parents| && b.parents[|b.parents| - |parents|..] == parents
    ensures b !in parents
  {
    forall i | 0 <= i < |parents| ensures parents[i] != b {
      assert parents[i] == b.parents[|b.parents| - |parents| + i];
    }
  }

  lemma AddNewWired(s: Core, b: Block)
    requires Wired(s) && b.HasParent() && b.QcObj() == s.hqc && forall p | p in b.parents :: p in s.storage
    ensures var s' := AddNew(s, b);
      Wired(s') && b in s'.storage && s'.tails == s.tails && s'.signed == s.signed && s'.vheight == s.vheight
  {
    hide StorageWired;
  }

  lemma FewerTails(s: Core, tails: set<Block>)
    requires Wired(s)
    ensures Wired(s.(tails := tails))
  {
  }

  /** b is a new block on the given parents, as s makes it. */
  predicate MadeBy(s: Core, b: Block, cmds: seq<Command>, parents: seq<Block>, extra: seq<nat>) {
    && b.HasParent() && b.cmds == cmds && b.extra == extra && b.qc == s.hqcCert
    && |parents| <= |b.parents| <= |parents| + 1 && b.parents[|b.parents| - |parents|..] == parents
  }

  /** on_propose off the tails: make the block, store it, process it. */
  lemma ProposeSteps(build: Build, s: Core, cmds: seq<Command>, parents: seq<Block>, extra: seq<nat>, full: bool)
    returns (b: Block, s2: Core)
    requires Wired(s) && s.hqcCert.obj == s.hqc && (forall p | p in parents :: p in s.storage) && parents != []
    ensures Wired(s2) && b in s2.storage && MadeBy(s, b, cmds, parents, extra)
    ensures s2.tails == s.tails - (set p | p in parents) && s2.signed == s.signed && s2.vheight == s.vheight
    ensures Propose(build, s, cmds, parents, extra, full) == ProcessBlock(build, s2, b, true, full)
  {
    var s1 := s.(tails := s.tails - (set p | p in parents));
    FewerTails(s, s1.tails);
    NewBlockOnPiped(s1, parents);
    hide StorageWired, ProcessBlock, ProposalParents, AddNew;
    b := NewBlock(s1, cmds, ProposalParents(s1, parents), extra);
    AddNewWired(s1, b);
    s2 := AddNew(s1, b);
  }

  lemma ProposeNothing(build: Build, s: Core, cmds: seq<Command>, extra: seq<nat>, full: bool)
    requires Wired(s) && s.hqcCert.obj == s.hqc
    ensures Propose(build, s, cmds, [], extra, full) == Outcome(s, Some(EmptyParents))
  {
  }

  /** on_propose throws on no parents and changes nothing.  Otherwise none of the given parents stays a tail, and unless
    * something is thrown, the replica ends having signed, once and above its last vote, a new block with the commands
    * and extra bytes given, its own highest certificate, and the given parents last. */
  lemma ProposeAnywhere(build: Build, s: Core, cmds: seq<Command>, parents: seq<Block>, extra: seq<nat>, full: bool)
    returns (b: Block)
    requires Wired(s) && s.hqcCert.obj == s.hqc && forall p | p in parents :: p in s.storage
    ensures var o := Propose(build, s, cmds, parents, extra, full);
      && (parents == [] ==> o == Outcome(s, Some(EmptyParents)))
      && (parents != [] ==> MadeBy(s, b, cmds, parents, extra) && forall p | p in parents :: p !in o.core.tails)
      && (parents != [] && o.error.None? ==>
            && o.core.signed == s.signed + [b] && DeliveredIn(o.core.storage, b)
            && o.core.vheight == o.core.storage[b].height > s.vheight)
  {
    hide Propose, ProcessBlock, Wired;
    if parents == [] {
      b := Genesis;
      ProposeNothing(build, s, cmds, extra, full);
    } else {
      var s2;
      b, s2 := ProposeSteps(build, s, cmds, parents, extra, full);
      NotOwnParent(b, parents);
      ProcessEffect(build, s2, b, true, full);
      ProcessTails(build, s2, b, full);
    }
  }
}
