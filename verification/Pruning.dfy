/** Pruning: what it clears, and why nothing later misses it. */
module Pruning {
  import opened Blocks
  import opened Votes
  import opened ConsensusCore
  import opened Invariant
  import opened Preservation

  /** The block staleness steps below b along parents[0], if the links reach that far. */
  function StaleStart(st: Storage, b: Block, staleness: nat): (r: Option<Block>)
    requires StorageWired(st) && b in st
    ensures r.Some? ==> r.value in st && Extends(b, r.value)
    decreases staleness
  {
    assert InfoWired(st, b);
    if staleness == 0 then Some(b)
    else if st[b].parents == [] then None
    else StaleStart(st, st[b].parents[0], staleness - 1)
  }

  /** x can be reached from b along the parent links still there, first parents and uncles alike. */
  ghost predicate Reaches(st: Storage, b: Block, x: Block)
    requires StorageWired(st) && b in st
    decreases b
  {
    assert InfoWired(st, b);
    b == x || exists i :: 0 <= i < |st[b].parents| && Reaches(st, st[b].parents[i], x)
  }

  function ClearLinks(i: Info): Info {
    i.(parents := [], qcRef := None)
  }

  /** Pruning from start clears start and everything reachable that has parent links. */
  ghost predicate Clears(st: Storage, start: Block, b: Block)
    requires StorageWired(st) && start in st && b in st
  {
    Reaches(st, start, b) && (b == start || st[b].parents != [])
  }

  ghost function PruneStore(st: Storage, start: Block): (st': Storage)
    requires StorageWired(st) && start in st
    ensures StorageWired(st') && st'.Keys == st.Keys
  {
    var st' := map b | b in st :: if Clears(st, start, b) then ClearLinks(st[b]) else st[b];
    assert StorageWired(st') by {
      forall b | b in st' ensures InfoWired(st', b) {
        assert InfoWired(st, b);
      }
    }
    st'
  }

  ghost function Prune(s: Core, staleness: nat): (s': Core)
    requires Wired(s)
    ensures Wired(s')
  {
    match StaleStart(s.storage, s.bExec, staleness)
    case None => s
    case Some(start) => s.(storage := PruneStore(s.storage, start))
  }

  // ---------- the stack walk ----------

  /** The parent links left in the blocks of keys. */
  ghost function Links(st: Storage, keys: set<Block>): nat
    requires keys <= st.Keys
  {
    if keys == {} then 0
    else
      var b :| b in keys;
      |st[b].parents| + Links(st, keys - {b})
  }

  lemma {:induction false} LinksOf(st: Storage, keys: set<Block>, b: Block)
    requires keys <= st.Keys && b in keys
    ensures Links(st, keys) == |st[b].parents| + Links(st, keys - {b})
    decreases |keys|
  {
    var x :| x in keys && Links(st, keys) == |st[x].parents| + Links(st, keys - {x});
    if x != b {
      LinksOf(st, keys - {x}, b);
      LinksOf(st, keys - {b}, x);
      assert keys - {x} - {b} == keys - {b} - {x};
    }
  }

  lemma {:induction false} LinksSame(st: Storage, st': Storage, keys: set<Block>)
    requires keys <= st.Keys && keys <= st'.Keys
    requires forall b | b in keys :: st'[b].parents == st[b].parents
    ensures Links(st', keys) == Links(st, keys)
    decreases |keys|
  {
    if keys != {} {
      var b :| b in keys;
      LinksOf(st, keys, b);
      LinksOf(st', keys, b);
      LinksSame(st, st', keys - {b});
    }
  }

  /** Dropping one link from one block. */
  lemma LinkRemoved(st: Storage, b: Block, i: Info)
    requires b in st && |i.parents| + 1 == |st[b].parents|
    ensures Links(st[b := i], st[b := i].Keys) + 1 == Links(st, st.Keys)
  {
    var st' := st[b := i];
    assert st'.Keys == st.Keys;
    LinksOf(st, st.Keys, b);
    LinksOf(st', st.Keys, b);
    LinksSame(st, st', st.Keys - {b});
  }

  /** A visited block midway: some of its last parents are gone and have been visited, and its
    * certificate pointer is gone once any of them is. */
  ghost predicate PartlyCleared(st0: Storage, start: Block, st: Storage, seen: set<Block>, x: Block)
    requires StorageWired(st0) && start in st0
  {
    && x in st0 && x in st
    && Reaches(st0, start, x)
    && st[x].parents <= st0[x].parents
    && st[x] == st0[x].(parents := st[x].parents,
                        qcRef := if x == start || |st[x].parents| < |st0[x].parents| then None else st0[x].qcRef)
    && (forall i | |st[x].parents| <= i < |st0[x].parents| :: st0[x].parents[i] in seen)
  }

  /** The walk so far: blocks not visited are untouched. */
  ghost predicate Clearing(st0: Storage, start: Block, st: Storage, seen: set<Block>) {
    && StorageWired(st0) && start in st0 && start in seen
    && st.Keys == st0.Keys && seen <= st.Keys
    && (forall x {:trigger x in seen} | x in st0 && x !in seen :: st[x] == st0[x])
    && (forall x {:trigger PartlyCleared(st0, start, st, seen, x)} | x in seen ::
      PartlyCleared(st0, start, st, seen, x))
  }

  lemma {:induction false} ReachesParent(st: Storage, b: Block, x: Block, i: nat)
    requires StorageWired(st) && b in st && x in st && Reaches(st, b, x) && i < |st[x].parents|
    ensures Reaches(st, b, st[x].parents[i])
    decreases b
  {
    assert InfoWired(st, b);
    if b != x {
      var j :| 0 <= j < |st[b].parents| && Reaches(st, st[b].parents[j], x);
      ReachesParent(st, st[b].parents[j], x, i);
    } else {
      assert InfoWired(st, x);
      assert st[x].parents[i] in st[x].parents;
      assert Reaches(st, st[x].parents[i], st[x].parents[i]);
    }
  }

  /** The last link of b. */
  function DropLink(i: Info): Info
    requires i.parents != []
  {
    i.(qcRef := None, parents := i.parents[..|i.parents| - 1])
  }

  lemma DropKeepsPartly(st0: Storage, start: Block, st: Storage, seen: set<Block>, b: Block, x: Block)
    requires StorageWired(st0) && start in st0 && b in st && st[b].parents != []
    requires PartlyCleared(st0, start, st, seen, x)
    ensures PartlyCleared(st0, start, st[b := DropLink(st[b])], seen + {st[b].parents[|st[b].parents| - 1]}, x)
  {
    hide Reaches, StorageWired;
  }

  lemma ClearingStep(st0: Storage, start: Block, st: Storage, seen: set<Block>, b: Block)
    requires Clearing(st0, start, st, seen) && b in seen && b in st && st[b].parents != []
    ensures Clearing(st0, start, st[b := DropLink(st[b])], seen + {st[b].parents[|st[b].parents| - 1]})
  {
    hide Reaches;
    var n := |st[b].parents| - 1;
    var p := st[b].parents[n];
    var st', seen' := st[b := DropLink(st[b])], seen + {p};
    assert PartlyCleared(st0, start, st, seen, b);
    assert p == st0[b].parents[n] && p in st0[b].parents;
    assert InfoWired(st0, b);
    ReachesParent(st0, start, b, n);
    forall x | x in seen' ensures PartlyCleared(st0, start, st', seen', x) {
      if x in seen {
        assert PartlyCleared(st0, start, st, seen, x);
        DropKeepsPartly(st0, start, st, seen, b, x);
      }
    }
  }

  lemma {:induction false} SeenAll(st0: Storage, b: Block, seen: set<Block>, x: Block)
    requires StorageWired(st0) && b in st0 && b in seen && Reaches(st0, b, x)
    requires forall y, i | y in seen && y in st0 && 0 <= i < |st0[y].parents| :: st0[y].parents[i] in seen
    ensures x in seen
    decreases b
  {
    assert InfoWired(st0, b);
    if b != x {
      var i :| 0 <= i < |st0[b].parents| && Reaches(st0, st0[b].parents[i], x);
      SeenAll(st0, st0[b].parents[i], seen, x);
    }
  }

  lemma ClearingDone(st0: Storage, start: Block, st: Storage, seen: set<Block>)
    requires Clearing(st0, start, st, seen)
    requires forall x | x in seen :: x in st && st[x].parents == []
    ensures st == PruneStore(st0, start)
  {
    forall y, i | y in seen && y in st0 && 0 <= i < |st0[y].parents| ensures st0[y].parents[i] in seen {
      assert PartlyCleared(st0, start, st, seen, y);
    }
    var st' := PruneStore(st0, start);
    forall x | x in st0 ensures st[x] == st'[x] {
      if x in seen {
        assert PartlyCleared(st0, start, st, seen, x);
      } else if Reaches(st0, start, x) {
        SeenAll(st0, start, seen, x);
      }
    }
  }

  // ---------- what pruning leaves alone ----------

  /** Links lead down: whatever is reachable from a delivered block is delivered and no higher. */
  lemma {:induction false} ReachesDown(c: Config, votes: seq<Vote>, st: Storage, exec: Block, b: Block, x: Block)
    requires c.n >= 1 && StoreOk(c, votes, st, exec) && DeliveredIn(st, b) && Reaches(st, b, x)
    ensures DeliveredIn(st, x) && Height(x) <= Height(b)
    decreases b
  {
    assert BlkOk(c, votes, st, exec, b);
    assert InfoWired(st, b);
    if b != x {
      var i :| 0 <= i < |st[b].parents| && Reaches(st, st[b].parents[i], x);
      var p := st[b].parents[i];
      assert p == b.Parents()[i] && p in b.Parents();
      ReachesDown(c, votes, st, exec, p, x);
    }
  }

  /** Only blocks at or below the last executed height lose their links. */
  lemma PrunedIsLow(c: Config, votes: seq<Vote>, s: Core, start: Block, x: Block)
    requires CoreInv(c, votes, s) && Wired(s) && start in s.storage && Extends(s.bExec, start)
    requires x in s.storage && Clears(s.storage, start, x)
    ensures DeliveredIn(s.storage, x) && Height(x) <= Height(s.bExec)
  {
    AncestorDelivered(c, votes, s.storage, s.bExec, s.bExec, start);
    ReachesDown(c, votes, s.storage, s.bExec, start, x);
    ExtendsHeight(s.bExec, start);
  }

  /** Pruning keeps the invariant, so no later walk reads what it cleared. */
  lemma PruneInv(c: Config, votes: seq<Vote>, s: Core, staleness: nat)
    requires CoreInv(c, votes, s) && Wired(s)
    ensures CoreInv(c, votes, Prune(s, staleness)) && Quiet(s, Prune(s, staleness))
  {
    hide CoreInv, StoreOk, Clears, StorageWired;
    var r := StaleStart(s.storage, s.bExec, staleness);
    if r.Some? {
      PruneStoreOk(c, votes, s, r.value);
      InvNewStorage(c, votes, s, PruneStore(s.storage, r.value));
    }
  }

  /** One block across a pruning. */
  lemma PruneBlkOk(c: Config, votes: seq<Vote>, st: Storage, st': Storage, exec: Block, b: Block)
    requires c.n >= 1 && b in st && b in st' && BlkOk(c, votes, st, exec, b) && Grows(st, st')
    requires st'[b] == st[b] || (st'[b] == ClearLinks(st[b]) && st[b].delivered && Height(b) <= Height(exec))
    ensures BlkOk(c, votes, st', exec, b)
  {
    hide Admissible, Extends;
    if st[b].delivered {
      assert ParentsDelivered(st', b);
    }
  }

  lemma PruneStoreOk(c: Config, votes: seq<Vote>, s: Core, start: Block)
    requires CoreInv(c, votes, s) && Wired(s) && start in s.storage && Extends(s.bExec, start)
    ensures StoreOk(c, votes, PruneStore(s.storage, start), s.bExec)
    ensures forall b :: DeliveredIn(PruneStore(s.storage, start), b) <==> DeliveredIn(s.storage, b)
  {
    hide Clears, CoreInv, BlkOk, Extends, StorageWired, Height;
    InvStore(c, votes, s);
    var st := PruneStore(s.storage, start);
    assert Grows(s.storage, st);
    forall b | b in st ensures BlkOk(c, votes, st, s.bExec, b) {
      InvBlk(c, votes, s, b);
      if Clears(s.storage, start, b) {
        PrunedIsLow(c, votes, s, start, b);
      }
      PruneBlkOk(c, votes, s.storage, st, s.bExec, b);
    }
  }

  // ---------- what pruning does ----------

  /** The ancestors of b less than k below it still have their links. */
  ghost predicate LinksDown(st: Storage, b: Block, k: nat) {
    k <= Height(b) && forall a | Extends(b, a) && Height(a) + k > Height(b) :: a in st && st[a].parents != []
  }

  lemma LinksDownParent(st: Storage, b: Block, k: nat)
    requires k > 0 && b.HasParent() && b in st && st[b].parents != []
    ensures LinksDown(st, b, k) <==> LinksDown(st, b.parents[0], k - 1)
  {
    var p := b.parents[0];
    if LinksDown(st, b, k) {
      forall a | Extends(p, a) && Height(a) + k - 1 > Height(p) ensures a in st && st[a].parents != [] {
        assert Extends(b, a) && Height(a) + k > Height(b);
      }
    }
  }

  /** The block that pruning starts from is the ancestor staleness below; there is none exactly if the chain is shorter
    * or its links down to there have been cut by an earlier pruning. */
  lemma {:induction false} StaleStartIs(c: Config, votes: seq<Vote>, st: Storage, exec: Block, b: Block, k: nat)
    requires c.n >= 1 && StoreOk(c, votes, st, exec) && DeliveredIn(st, b)
    ensures var r := StaleStart(st, b, k);
      && (r.Some? <==> LinksDown(st, b, k))
      && (r.Some? ==> Extends(b, r.value) && Height(r.value) + k == Height(b))
    decreases k
  {
    assert BlkOk(c, votes, st, exec, b);
    if k == 0 {
      forall a | Extends(b, a) ensures Height(a) <= Height(b) {
        ExtendsHeight(b, a);
      }
    } else {
      if st[b].parents == [] {
        assert Extends(b, b) && Height(b) + k > Height(b);
      } else {
        assert b.parents[0] in b.Parents();
        StaleStartIs(c, votes, st, exec, b.parents[0], k - 1);
        LinksDownParent(st, b, k);
      }
    }
  }

  /** Everything that can be reached from start loses its parent links, and with them, or at the start, its certificate
    * link; every other field and every other block stays. */
  ghost predicate Cut(st: Storage, st': Storage, start: Block)
    requires StorageWired(st) && start in st
  {
    && st'.Keys == st.Keys
    && forall x | x in st ::
         var i, i' := st[x], st'[x];
         && i' == i.(parents := i'.parents, qcRef := i'.qcRef)
         && (Reaches(st, start, x) ==> i'.parents == [])
         && (!Reaches(st, start, x) ==> i' == i)
         && (x == start || i'.parents != i.parents ==> i'.qcRef == None)
         && (x != start && i'.parents == i.parents ==> i'.qcRef == i.qcRef)
  }

  lemma PruneCuts(st: Storage, start: Block)
    requires StorageWired(st) && start in st
    ensures Cut(st, PruneStore(st, start), start)
  {
    assert Reaches(st, start, start);
    hide StorageWired, Reaches;
  }

  /** Pruning changes nothing if the links from the last executed block reach down less than staleness blocks.
    * Otherwise it cuts from the ancestor that far down. */
  lemma PruneExactly(c: Config, votes: seq<Vote>, s: Core, staleness: nat) returns (start: Block)
    requires CoreInv(c, votes, s) && Wired(s)
    ensures start in s.storage
    ensures !LinksDown(s.storage, s.bExec, staleness) ==> Prune(s, staleness) == s
    ensures LinksDown(s.storage, s.bExec, staleness) ==>
      && Extends(s.bExec, start) && Height(start) + staleness == Height(s.bExec)
      && Prune(s, staleness) == s.(storage := Prune(s, staleness).storage)
      && Cut(s.storage, Prune(s, staleness).storage, start)
  {
    hide CoreInv, StoreOk, StorageWired, LinksDown, Extends, Height, Cut, PruneStore, StaleStart;
    InvStore(c, votes, s);
    InvExec(c, votes, s);
    StaleStartIs(c, votes, s.storage, s.bExec, s.bExec, staleness);
    var r := StaleStart(s.storage, s.bExec, staleness);
    start := if r.Some? then r.value else s.bExec;
    PruneCuts(s.storage, start);
  }
}
