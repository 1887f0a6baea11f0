/** The protocol state machine as the program keeps it: an object whose handlers update its
  * fields in place and walk the block graph with loops.  Every handler is proved to leave the
  * state, and to throw the exception, that its specification in ConsensusCore gives. */
module Replica {
  import opened Blocks
  import opened Votes
  import opened ConsensusCore
  import opened Pruning

  function Reversed<T>(q: seq<T>): (r: seq<T>)
    ensures |r| == |q|
    ensures forall i | 0 <= i < |q| :: r[i] == q[|q| - 1 - i]
  {
    if q == [] then [] else Reversed(q[1..]) + [q[0]]
  }

  lemma ReversedAppend<T>(q: seq<T>, x: T)
    ensures Reversed(q + [x]) == [x] + Reversed(q)
  {
  }

  /** The parents found so far are the parents found before the first that cannot be. */
  lemma {:induction false} ResolvedPrefix(s: Core, ps: seq<Block>, k: nat)
    requires k <= |ps| && (forall i | 0 <= i < k :: Resolvable(s, ps[i]))
    requires k == |ps| || !Resolvable(s, ps[k])
    ensures ResolvedParents(s, ps) == ps[..k]
  {
    if k > 0 {
      ResolvedPrefix(s, ps[1..], k - 1);
      assert ps[..k] == [ps[0]] + ps[1..][..k - 1];
    }
  }

  lemma {:induction false} FinalitiesSnoc(id: ReplicaId, st: Storage, q: seq<Block>, b: Block)
    requires (forall x | x in q :: x in st) && b in st
    ensures forall x | x in q + [b] :: x in st
    ensures Finalities(id, st, q + [b]) == Finalities(id, st, q) + BlockFinalities(id, st[b].height, b)
  {
    assert (q + [b])[..|q|] == q;
  }

  lemma MarkSnoc(st: Storage, q: seq<Block>, b: Block)
    requires b in st
    ensures MarkDecided(st, q)[b := MarkDecided(st, q)[b].(decision := true)] == MarkDecided(st, q + [b])
    ensures MarkDecided(st, q)[b].height == st[b].height
  {
    hide StorageWired;
    var st1, st2 := MarkDecided(st, q), MarkDecided(st, q + [b]);
    forall x | x in st ensures st1[b := st1[b].(decision := true)][x] == st2[x] {
      assert x in q + [b] <==> x in q || x == b;
    }
  }

  lemma Overwrite<K, V>(m: map<K, V>, k: K, v: V, w: V)
    ensures m[k := v][k := w] == m[k := w]
  {
  }

  lemma VotingKeepsWires(s: Core, vheight: nat, signed: seq<Block>)
    requires Wired(s)
    ensures Wired(s.(vheight := vheight, signed := signed))
  {
  }

  lemma NoFinalities(id: ReplicaId, st: Storage)
    ensures Finalities(id, st, []) == []
  {
  }

  lemma MarkNone(st: Storage)
    ensures MarkDecided(st, []) == st
  {
  }

  class HotStuffCore {
    const id: ReplicaId
    const nmajority: nat
    var storage: Storage
    var hqc: Block
    var hqcCert: Cert
    var bLock: Block
    var bExec: Block
    var vheight: nat
    var tails: set<Block>
    var pipedQueue: seq<Block>
    var voteDisabled: bool
    var log: seq<Block>
    var decided: seq<Finality>
    var signed: seq<Block>

    function Value(): Core
      reads this
    {
      Core(id, nmajority, storage, hqc, hqcCert, bLock, bExec, vheight, tails, pipedQueue,
           voteDisabled, log, decided, signed)
    }

    constructor (id: ReplicaId, nmajority: nat, replicas: set<ReplicaId>, voteDisabled: bool)
      ensures Value() == Init(id, nmajority, replicas, voteDisabled)
    {
      this.id, this.nmajority, this.voteDisabled := id, nmajority, voteDisabled;
      storage := map[Genesis := Info([], Some(Genesis), 0, true, true, replicas, Some(Cert(Genesis, {})))];
      hqc, hqcCert, bLock, bExec := Genesis, Cert(Genesis, {}), Genesis, Genesis;
      vheight, tails, pipedQueue := 0, {Genesis}, [];
      log, decided, signed := [], [], [];
    }

    method DeliverBlk(b: Block) returns (e: Option<Error>)
      requires Wired(Value()) && b in storage
      modifies this
      ensures Outcome(Value(), e) == Deliver(old(Value()), b)
    {
      hide StorageWired;
      if storage[b].delivered {
        return None;
      }
      ghost var s0 := Value();
      var ok := ResolveParents(b);
      if !ok {
        return Some(NotDelivered);
      }
      var i := storage[b];
      if i.parents == [] {
        return Some(DanglingRead);
      }
      assert Resolvable(s0, b.Parents()[0]);
      i := i.(height := storage[i.parents[0]].height + 1);
      storage := storage[b := i];
      Overwrite(s0.storage, b, i.(height := s0.storage[b].height), i);
      if b.QcObj() !in storage {
        return Some(QcNotFetched);
      }
      tails := tails - (set p | p in i.parents) + {b};
      Overwrite(s0.storage, b, i, i.(qcRef := Some(b.QcObj()), delivered := true));
      i := i.(qcRef := Some(b.QcObj()), delivered := true);
      storage := storage[b := i];
      return None;
    }

    /** The loop of delivery that turns parent hashes into blocks; false if it throws. */
    method ResolveParents(b: Block) returns (ok: bool)
      requires b in storage
      modifies this`storage
      ensures storage == old(storage)[b := old(storage)[b].(parents := ResolvedParents(old(Value()), b.Parents()))]
      ensures ok <==> ResolvedParents(old(Value()), b.Parents()) == b.Parents()
    {
      ghost var s0 := Value();
      var hashes, k := b.Parents(), 0;
      storage := storage[b := storage[b].(parents := [])];
      while k < |hashes|
        invariant k <= |hashes|
        invariant storage == s0.storage[b := s0.storage[b].(parents := hashes[..k])]
        invariant forall i | 0 <= i < k :: Resolvable(s0, hashes[i])
      {
        var p := hashes[k];
        if p !in storage || (p !in pipedQueue && !storage[p].delivered) {
          ResolvedPrefix(s0, hashes, k);
          return false;
        }
        storage := storage[b := storage[b].(parents := storage[b].parents + [p])];
        assert hashes[..k + 1] == hashes[..k] + [p];
        k := k + 1;
      }
      assert hashes[..k] == hashes;
      ResolvedPrefix(s0, hashes, k);
      return true;
    }

    method RaiseHqc(b: Block, qc: Cert)
      requires Wired(Value()) && b in storage
      modifies this`hqc, this`hqcCert
      ensures Value() == UpdateHqc(old(Value()), b, qc)
    {
      if storage[b].height > storage[hqc].height {
        hqc, hqcCert := b, qc;
      }
    }

    /** The walk and the commit loop at the end of update. */
    method CommitTo(blk: Block) returns (e: Option<Error>)
      requires Wired(Value()) && blk in storage
      modifies this`storage, this`log, this`decided, this`bExec
      ensures Outcome(Value(), e) == Commit(old(Value()), blk)
    {
      hide MarkDecided, Finalities, Reversed;
      ghost var s0, h := Value(), storage[bExec].height;
      var b, queue := blk, [];
      while storage[b].height > storage[bExec].height
        invariant Value() == s0 && b in storage && forall x | x in queue :: x in storage
        invariant WalkDown(storage, blk, h) == WalkDown(storage, b, h)
        invariant WalkDown(storage, b, h).Some? ==> Passed(storage, blk, h) == Passed(storage, b, h) + Reversed(queue)
        decreases b
      {
        assert InfoWired(storage, b);
        if storage[b].parents == [] {
          return Some(DanglingRead);
        }
        ReversedAppend(queue, b);
        queue := queue + [b];
        b := storage[b].parents[0];
      }
      if b != bExec {
        return Some(SafetyBreached);
      }
      assert Passed(s0.storage, blk, h) == Reversed(queue);
      ExecuteQueue(queue);
      bExec := blk;
      return None;
    }

    /** Mark the queued blocks decided and hand them out, last pushed first. */
    method ExecuteQueue(queue: seq<Block>)
      requires StorageWired(storage) && forall x | x in queue :: x in storage
      modifies this`storage, this`log, this`decided
      ensures storage == MarkDecided(old(storage), Reversed(queue))
      ensures log == old(log) + Reversed(queue)
      ensures forall x | x in Reversed(queue) :: x in old(storage)
      ensures decided == old(decided) + Finalities(id, old(storage), Reversed(queue))
    {
      hide MarkDecided, Finalities, BlockFinalities, StorageWired, Reversed;
      ghost var st0, todo := storage, Reversed(queue);
      var k := |queue|;
      MarkNone(st0);
      NoFinalities(id, st0);
      while k > 0
        invariant 0 <= k <= |queue|
        invariant forall x | x in todo :: x in st0
        invariant forall x | x in todo[..|queue| - k] :: x in st0
        invariant storage == MarkDecided(st0, todo[..|queue| - k])
        invariant log == old(log) + todo[..|queue| - k]
        invariant decided == old(decided) + Finalities(id, st0, todo[..|queue| - k])
      {
        k := k - 1;
        var b := queue[k];
        ghost var done := todo[..|queue| - k - 1];
        assert todo[|queue| - k - 1] == b && todo[..|queue| - k] == done + [b];
        FinalitiesSnoc(id, st0, done, b);
        MarkSnoc(st0, done, b);
        storage := storage[b := storage[b].(decision := true)];
        log := log + [b];
        decided := decided + BlockFinalities(id, storage[b].height, b);
      }
      assert todo[..|queue|] == todo;
    }

    method UpdateChain(build: Build, nblk: Block) returns (e: Option<Error>)
      requires Wired(Value()) && nblk in storage
      modifies this
      ensures Outcome(Value(), e) == Update(build, old(Value()), nblk)
    {
      assert InfoWired(storage, nblk);
      if storage[nblk].qcRef.None? {
        return None;
      }
      var blk2 := storage[nblk].qcRef.value;
      assert InfoWired(storage, blk2);
      if storage[blk2].decision {
        return None;
      }
      RaiseHqc(blk2, nblk.Qc());
      var blk1, linked := blk2, Some(true);
      if build.ThreeStep? {
        if storage[blk2].qcRef.None? {
          return None;
        }
        blk1 := storage[blk2].qcRef.value;
        if storage[blk1].decision {
          return None;
        }
        var ps := storage[blk2].parents;
        linked := if ps == [] then None else Some(ps[0] == blk1);
      }
      e := LockAndCommitTo(blk1, linked);
    }

    /** The rest of update, from the block to lock on. */
    method LockAndCommitTo(blk1: Block, linked: Option<bool>) returns (e: Option<Error>)
      requires Wired(Value()) && blk1 in storage
      modifies this
      ensures Outcome(Value(), e) == LockAndCommit(old(Value()), blk1, linked)
    {
      assert InfoWired(storage, blk1);
      if storage[blk1].height > storage[bLock].height {
        bLock := blk1;
      }
      if storage[blk1].qcRef.None? {
        return None;
      }
      var blk := storage[blk1].qcRef.value;
      if storage[blk].decision {
        return None;
      }
      if linked.None? {
        return Some(DanglingRead);
      }
      if !linked.value {
        return None;
      }
      if storage[blk1].parents == [] {
        return Some(DanglingRead);
      }
      if storage[blk1].parents[0] != blk {
        return None;
      }
      e := CommitTo(blk);
    }

    /** The vote rule, with its walk down to the lock. */
    method FormOpinion(b: Block) returns (opinion: Option<bool>)
      requires Wired(Value()) && b in storage
      ensures opinion == Opinion(Value(), b)
    {
      assert InfoWired(storage, b);
      if storage[b].height <= vheight {
        return Some(false);
      }
      if storage[b].qcRef.Some? && storage[storage[b].qcRef.value].height > storage[bLock].height {
        return Some(true);
      }
      var x := b;
      while storage[x].height > storage[bLock].height
        invariant x in storage
        invariant WalkDown(storage, b, storage[bLock].height) == WalkDown(storage, x, storage[bLock].height)
        decreases x
      {
        assert InfoWired(storage, x);
        if storage[x].parents == [] {
          return None;
        }
        x := storage[x].parents[0];
      }
      return Some(x == bLock);
    }

    method OnReceiveProposal(build: Build, b: Block) returns (e: Option<Error>)
      requires Wired(Value()) && b in storage
      modifies this
      ensures Outcome(Value(), e) == ReceiveProposal(build, old(Value()), b)
    {
      hide Update, Opinion, StorageWired;
      if !storage[b].delivered {
        return Some(NotDelivered);
      }
      e := UpdateChain(build, b);
      if e.Some? {
        return e;
      }
      var opinion := FormOpinion(b);
      if opinion.None? {
        return Some(DanglingRead);
      }
      if opinion.value {
        vheight := storage[b].height;
        if !voteDisabled {
          signed := signed + [b];
        }
      }
      return None;
    }

    method OnReceiveVote(b: Block, voter: ReplicaId, carriedFull: bool) returns (e: Option<Error>)
      requires Wired(Value())
      modifies this
      ensures Outcome(Value(), e) == ReceiveVote(old(Value()), b, voter, carriedFull)
    {
      hide StorageWired;
      if b !in storage || !storage[b].delivered {
        return Some(NotDelivered);
      }
      if voter in storage[b].voted {
        return None;
      }
      ghost var s0 := Value();
      var i := storage[b];
      i := i.(voted := i.voted + {voter});
      storage := storage[b := i];
      assert Value() == AddVoter(s0, b, voter);
      if voter != id || carriedFull {
        return None;
      }
      var qc := if i.selfQc.None? then Cert(b, {}) else i.selfQc.value;
      qc := qc.(signers := qc.signers + {voter});
      storage := storage[b := i.(selfQc := Some(qc))];
      assert Value() == AddPart(AddVoter(s0, b, voter), b, voter);
      if |qc.signers| >= nmajority {
        RaiseHqc(b, qc);
      }
      return None;
    }

    method Process(build: Build, b: Block, adjustHeight: bool, carriedFull: bool) returns (e: Option<Error>)
      requires Wired(Value()) && b in storage
      modifies this
      ensures Outcome(Value(), e) == ProcessBlock(build, old(Value()), b, adjustHeight, carriedFull)
    {
      hide Deliver, Update, ReceiveVote, Wired;
      ghost var s1 := OpenSelfQc(Value(), b);
      if storage[b].selfQc.None? {
        storage := storage[b := storage[b].(selfQc := Some(Cert(b, {})))];
      }
      assert Value() == s1;
      e := DeliverBlk(b);
      if e.Some? {
        return e;
      }
      e := UpdateChain(build, b);
      if e.Some? {
        return e;
      }
      if adjustHeight {
        if storage[b].height <= vheight {
          return Some(NotAboveVheight);
        }
        vheight := storage[b].height;
      }
      signed := signed + [b];
      VotingKeepsWires(Update(build, Deliver(s1, b).core, b).core, vheight, signed);
      e := OnReceiveVote(b, id, carriedFull);
    }

    /** Build the block to propose and store it; the parents come off the tails first. */
    method MakeBlock(cmds: seq<Command>, parents: seq<Block>, extra: seq<nat>) returns (b: Block)
      requires Wired(Value()) && hqcCert.obj == hqc && parents != []
      requires forall p | p in parents :: p in storage
      modifies this`storage, this`tails
      ensures var s1 := old(Value()).(tails := old(tails) - (set p | p in parents));
        && b == NewBlock(s1, cmds, ProposalParents(s1, parents), extra)
        && Value() == AddNew(s1, b)
    {
      hide StorageWired;
      tails := tails - (set p | p in parents);
      var newParents := parents;
      if pipedQueue != [] {
        var piped := pipedQueue[|pipedQueue| - 1];
        assert piped in pipedQueue;
        if storage[newParents[0]].height <= storage[piped].height {
          newParents := [piped] + newParents;
        }
      }
      b := Block(newParents, cmds, hqcCert, extra);
      if b !in storage {
        storage := storage[b := FRESH.(parents := newParents, qcRef := Some(hqc),
          height := storage[newParents[0]].height + 1)];
      }
    }

    method OnPropose(build: Build, cmds: seq<Command>, parents: seq<Block>, extra: seq<nat>, carriedFull: bool)
      returns (e: Option<Error>)
      requires Wired(Value()) && hqcCert.obj == hqc
      requires forall p | p in parents :: p in storage
      modifies this
      ensures Outcome(Value(), e) == Propose(build, old(Value()), cmds, parents, extra, carriedFull)
    {
      hide ProcessBlock, AddNew, NewBlock, ProposalParents, StorageWired;
      if parents == [] {
        return Some(EmptyParents);
      }
      var b := MakeBlock(cmds, parents, extra);
      e := Process(build, b, true, carriedFull);
    }

    /** Clear the links of the block staleness below b_exec and of everything under it, with a stack. */
    method PruneStale(staleness: nat)
      requires Wired(Value())
      modifies this`storage
      ensures Value() == Prune(old(Value()), staleness)
    {
      var start, k := bExec, staleness;
      while k > 0
        invariant start in storage && storage == old(storage)
        invariant StaleStart(storage, bExec, staleness) == StaleStart(storage, start, k)
      {
        assert InfoWired(storage, start);
        if storage[start].parents == [] {
          return;
        }
        start, k := storage[start].parents[0], k - 1;
      }
      ClearFrom(start);
    }

    method ClearFrom(start: Block)
      requires StorageWired(storage) && start in storage
      modifies this`storage
      ensures storage == PruneStore(old(storage), start)
    {
      ghost var st0, seen := storage, {start};
      storage := storage[start := storage[start].(qcRef := None)];
      var stack := [start];
      while stack != []
        invariant Clearing(st0, start, storage, seen)
        invariant forall x | x in stack :: x in seen
        invariant forall x | x in seen :: storage[x].parents == [] || x in stack
        decreases 2 * Links(storage, storage.Keys) + |stack|
      {
        var blk := stack[|stack| - 1];
        if storage[blk].parents == [] {
          stack := stack[..|stack| - 1];
        } else {
          var ps := storage[blk].parents;
          var p := ps[|ps| - 1];
          ghost var before := storage;
          storage := storage[blk := DropLink(storage[blk])];
          LinkRemoved(before, blk, storage[blk]);
          ClearingStep(st0, start, before, seen, blk);
          seen := seen + {p};
          stack := stack + [p];
        }
      }
      ClearingDone(st0, start, storage, seen);
    }
  }
}
