/** The dissemination and aggregation tree.  Every replica runs the same index arithmetic over the
  * list of replicas; the loop is proved to compute one tree, described by a parent function. */
module Tree {
  import opened Blocks

  // ---------- arithmetic ----------

  function Min(a: nat, b: nat): nat {
    if a <= b then a else b
  }

  lemma MulMono(a: nat, b: nat, k: nat)
    requires a <= b
    ensures a * k <= b * k
  {
  }

  /** The floor leaves less than one divisor. */
  lemma DivBounds(a: nat, d: nat)
    requires d >= 1
    ensures (a / d) * d <= a < (a / d + 1) * d
  {
  }

  lemma DivUnique(a: nat, d: nat, q: nat)
    requires d >= 1 && q * d <= a < (q + 1) * d
    ensures a / d == q
  {
    DivBounds(a, d);
    if a / d < q {
      MulMono(a / d + 1, q, d);
    } else if a / d > q {
      MulMono(q + 1, a / d, d);
    }
  }

  // ---------- the tree as a parent function ----------

  /** The fan-out used for the level of size level that starts at index first: the nodes from
    * first on are spread over the level, but no wider than the configured fan-out m. */
  function CurrFanout(n: nat, m: nat, first: nat, level: nat): nat
    requires level >= 1 && first <= n
  {
    Min((n - first) / level, m)
  }

  /** A level of the tree: only the root's has a single node. */
  predicate IsLevel(n: nat, m: nat, first: nat, level: nat) {
    && m >= 2 && level >= 1
    && first + level <= n
    && (first == 0 <==> level == 1)
  }

  lemma FanoutPositive(n: nat, m: nat, first: nat, level: nat)
    requires IsLevel(n, m, first, level)
    ensures CurrFanout(n, m, first, level) >= 1
  {
    DivBounds(n - first, level);
  }

  /** A level whose children do not overrun the list uses the full fan-out, and its children are the next level. */
  lemma NotLastIsFull(n: nat, m: nat, first: nat, level: nat)
    requires IsLevel(n, m, first, level)
    requires first + level + CurrFanout(n, m, first, level) * level <= n
    ensures CurrFanout(n, m, first, level) == m
    ensures IsLevel(n, m, first + level, m * level)
  {
    var q := (n - first) / level;
    DivBounds(n - first, level);
    assert (q + 1) * level == q * level + level;
    FanoutPositive(n, m, first, level);
    MulMono(2, m, level);
  }

  /** The parent of j, searched from a level above j. */
  function ParentFrom(n: nat, m: nat, first: nat, level: nat, j: nat): (p: nat)
    requires IsLevel(n, m, first, level) && first + level <= j < n
    ensures first <= p < j
    decreases n - first
  {
    FanoutPositive(n, m, first, level);
    hide CurrFanout;
    var c := CurrFanout(n, m, first, level);
    var span := c * level;
    if j < first + level + span then
      QuotientBelow(j - first - level, c, level);
      first + (j - first - level) / c
    else
      NotLastIsFull(n, m, first, level);
      var next := m * level;
      assert next == span;
      ParentFrom(n, m, first + level, next, j)
  }

  lemma QuotientBelow(a: nat, c: nat, level: nat)
    requires c >= 1 && a < c * level
    ensures a / c < level
  {
    DivBounds(a, c);
    if a / c >= level {
      MulMono(level, a / c, c);
    }
  }

  /** The parent of replica j in the tree of n replicas with fan-out m. */
  function Parent(n: nat, m: nat, j: nat): (p: nat)
    requires m >= 2 && 1 <= j < n
    ensures p < j
  {
    ParentFrom(n, m, 0, 1, j)
  }

  // ---------- shape of the tree ----------

  /** Later nodes have later parents. */
  lemma {:induction false} ParentFromMonotone(n: nat, m: nat, first: nat, level: nat, j: nat, k: nat)
    requires IsLevel(n, m, first, level) && first + level <= j <= k < n
    ensures ParentFrom(n, m, first, level, j) <= ParentFrom(n, m, first, level, k)
    decreases n - first
  {
    var c := CurrFanout(n, m, first, level);
    FanoutPositive(n, m, first, level);
    if j >= first + level + c * level {
      NotLastIsFull(n, m, first, level);
      ParentFromMonotone(n, m, first + level, m * level, j, k);
    } else if k >= first + level + c * level {
      QuotientBelow(j - first - level, c, level);
      NotLastIsFull(n, m, first, level);
    } else {
      DivMono(j - first - level, k - first - level, c);
    }
  }

  lemma DivMono(a: nat, b: nat, d: nat)
    requires d >= 1 && a <= b
    ensures a / d <= b / d
  {
    DivBounds(a, d);
    DivBounds(b, d);
    if b / d < a / d {
      MulMono(b / d + 1, a / d, d);
    }
  }

  /** Nodes with one parent lie less than a fan-out apart. */
  lemma {:induction false} SiblingsClose(n: nat, m: nat, first: nat, level: nat, j: nat, k: nat)
    requires IsLevel(n, m, first, level) && first + level <= j <= k < n
    requires ParentFrom(n, m, first, level, j) == ParentFrom(n, m, first, level, k)
    ensures k - j < m
    decreases n - first
  {
    var c := CurrFanout(n, m, first, level);
    FanoutPositive(n, m, first, level);
    if j >= first + level + c * level {
      NotLastIsFull(n, m, first, level);
      SiblingsClose(n, m, first + level, m * level, j, k);
    } else if k >= first + level + c * level {
      QuotientBelow(j - first - level, c, level);
      NotLastIsFull(n, m, first, level);
    } else {
      var a, b := j - first - level, k - first - level;
      DivBounds(a, c);
      DivBounds(b, c);
      assert (a / c + 1) * c == (a / c) * c + c;
    }
  }

  /** The children of p are a contiguous range of at most m later replicas. */
  lemma ChildrenContiguous(n: nat, m: nat, i: nat, j: nat, k: nat)
    requires m >= 2 && 1 <= i <= j <= k < n && Parent(n, m, i) == Parent(n, m, k)
    ensures Parent(n, m, j) == Parent(n, m, i)
    ensures k - i < m
  {
    ParentFromMonotone(n, m, 0, 1, i, j);
    ParentFromMonotone(n, m, 0, 1, j, k);
    SiblingsClose(n, m, 0, 1, i, k);
  }

  // ---------- what one replica computes ----------

  type PeerId = nat

  predicate Distinct(peers: seq<PeerId>) {
    forall i, j | 0 <= i < j < |peers| :: peers[i] != peers[j]
  }

  predicate IsChild(n: nat, m: nat, p: nat, j: nat) {
    m >= 2 && 1 <= j < n && Parent(n, m, j) == p
  }

  predicate IsGrandchild(n: nat, m: nat, p: nat, j: nat) {
    m >= 2 && 1 <= j < n && Parent(n, m, j) >= 1 && Parent(n, m, Parent(n, m, j)) == p
  }

  /** The nodes below bound that replica id counts: its children and its grandchildren. */
  function Counted(n: nat, m: nat, id: nat, bound: nat): set<nat> {
    set j: nat | j < bound && (IsChild(n, m, id, j) || IsGrandchild(n, m, id, j))
  }

  function ChildPeers(n: nat, m: nat, id: nat, peers: seq<PeerId>, bound: nat): set<PeerId>
    requires bound <= n == |peers|
  {
    set j: nat | j < bound && IsChild(n, m, id, j) :: peers[j]
  }

  function ParentPeer(n: nat, m: nat, id: nat, peers: seq<PeerId>, bound: nat): Option<PeerId>
    requires bound <= n == |peers| && m >= 2 && id < n
  {
    if 1 <= id < bound then Some(peers[Parent(n, m, id)]) else None
  }

  /** What replica id has after looking at the nodes below bound. */
  ghost predicate Seen(n: nat, m: nat, id: nat, peers: seq<PeerId>, bound: nat,
                       children: set<nat>, childPeers: set<PeerId>, parentPeer: Option<PeerId>)
    requires bound <= n == |peers| && m >= 2 && id < n
  {
    && children == Counted(n, m, id, bound)
    && childPeers == ChildPeers(n, m, id, peers, bound)
    && parentPeer == ParentPeer(n, m, id, peers, bound)
  }

  /** A peer is among the children's exactly when the replica it belongs to is a child. */
  lemma PeerOfChild(n: nat, m: nat, id: nat, peers: seq<PeerId>, bound: nat, i: nat)
    requires bound <= n == |peers| && Distinct(peers) && i < n
    ensures peers[i] in ChildPeers(n, m, id, peers, bound) <==> i < bound && IsChild(n, m, id, i)
  {
    if peers[i] in ChildPeers(n, m, id, peers, bound) {
      var j: nat :| j < bound && IsChild(n, m, id, j) && peers[j] == peers[i];
      assert j <= i && i <= j;
    }
  }

  /** Looking at one more node. */
  lemma SeenStep(n: nat, m: nat, id: nat, peers: seq<PeerId>, j: nat,
                 children: set<nat>, childPeers: set<PeerId>, parentPeer: Option<PeerId>)
    requires 1 <= j < n == |peers| && m >= 2 && id < n && Distinct(peers)
    requires Seen(n, m, id, peers, j, children, childPeers, parentPeer)
    ensures var i := Parent(n, m, j);
      && (id == i ==> Seen(n, m, id, peers, j + 1, children + {j}, childPeers + {peers[j]}, parentPeer))
      && (id != i && id == j ==> Seen(n, m, id, peers, j + 1, children, childPeers, Some(peers[i])))
      && (id != i && id != j && peers[i] in childPeers ==>
           Seen(n, m, id, peers, j + 1, children + {j}, childPeers, parentPeer))
      && (id != i && id != j && peers[i] !in childPeers ==>
           Seen(n, m, id, peers, j + 1, children, childPeers, parentPeer))
  {
    var i := Parent(n, m, j);
    PeerOfChild(n, m, id, peers, j, i);
    assert IsGrandchild(n, m, id, j) <==> i >= 1 && IsChild(n, m, id, i);
    assert Counted(n, m, id, j + 1) ==
      if IsChild(n, m, id, j) || IsGrandchild(n, m, id, j) then Counted(n, m, id, j) + {j} else Counted(n, m, id, j);
    assert ChildPeers(n, m, id, peers, j + 1) ==
      if IsChild(n, m, id, j) then ChildPeers(n, m, id, peers, j) + {peers[j]} else ChildPeers(n, m, id, peers, j);
  }

  /** Where the children of node i of a level begin, with c children for each node before it. */
  function TurnStart(first: nat, level: nat, i: nat, c: nat): nat
    requires first <= i
  {
    first + level + (i - first) * c
  }

  lemma TurnAdvance(first: nat, level: nat, i: nat, c: nat)
    requires first <= i
    ensures TurnStart(first, level, i + 1, c) == TurnStart(first, level, i, c) + c
    ensures TurnStart(first, level, first, c) == first + level
    ensures TurnStart(first, level, i, c) >= first + level
  {
  }

  /** The node whose turn it is at j is j's parent. */
  lemma TurnIsParent(n: nat, m: nat, first: nat, level: nat, i: nat, j: nat)
    requires IsLevel(n, m, first, level) && first <= i < first + level && first + level <= j < n
    requires forall k | first + level <= k < n :: Parent(n, m, k) == ParentFrom(n, m, first, level, k)
    requires TurnStart(first, level, i, CurrFanout(n, m, first, level)) <= j
           < TurnStart(first, level, i, CurrFanout(n, m, first, level)) + CurrFanout(n, m, first, level)
    ensures Parent(n, m, j) == i
  {
    var c := CurrFanout(n, m, first, level);
    FanoutPositive(n, m, first, level);
    MulMono(i - first + 1, level, c);
    DivUnique(j - first - level, c, i - first);
  }

  /** The children of the next nodes are searched from the next level. */
  lemma NextLevel(n: nat, m: nat, first: nat, level: nat)
    requires IsLevel(n, m, first, level)
    requires TurnStart(first, level, first + level, CurrFanout(n, m, first, level)) <= n
    requires forall k | first + level <= k < n :: Parent(n, m, k) == ParentFrom(n, m, first, level, k)
    ensures CurrFanout(n, m, first, level) == m
    ensures IsLevel(n, m, first + level, m * level)
    ensures TurnStart(first, level, first + level, m) == first + level + m * level
    ensures m * level <= n - first
    ensures forall k | first + level + m * level <= k < n ::
      Parent(n, m, k) == ParentFrom(n, m, first + level, m * level, k)
  {
    var c := CurrFanout(n, m, first, level);
    assert c * level == level * c;
    NotLastIsFull(n, m, first, level);
  }

  /** The loop every replica runs: it visits the nodes in order, each together with its parent, and
    * collects this replica's view of the tree.  The index arithmetic never leaves the list. */
  method BuildTree(id: nat, peers: seq<PeerId>, fanout: nat)
    returns (children: set<nat>, childPeers: set<PeerId>, parentPeer: Option<PeerId>)
    requires |peers| >= 2 && fanout >= 2 && Distinct(peers) && id < |peers|
    ensures Seen(|peers|, fanout, id, peers, |peers|, children, childPeers, parentPeer)
  {
    hide ParentFrom, Parent, Seen, Counted, ChildPeers, ParentPeer, TurnStart;
    var size := |peers|;
    children, childPeers, parentPeer := {}, {}, None;
    NothingSeen(size, fanout, id, peers);
    var processesOnLevel: nat, done, i: nat := 1, false, 0;
    while i < size
      invariant !done ==> IsLevel(size, fanout, i, processesOnLevel)
      invariant !done ==> Seen(size, fanout, id, peers, i + processesOnLevel, children, childPeers, parentPeer)
      invariant !done ==> forall k | i + processesOnLevel <= k < size ::
        Parent(size, fanout, k) == ParentFrom(size, fanout, i, processesOnLevel, k)
      invariant done ==> Seen(size, fanout, id, peers, size, children, childPeers, parentPeer)
    {
      if done {
        break;
      }
      ghost var first, level := i, processesOnLevel;
      var remaining := size - i;
      var maxFanout := remaining / processesOnLevel;
      var currFanout := Min(maxFanout, fanout);
      var levelPeer := peers[i];
      var start: nat := i + processesOnLevel;
      var counter := 1;
      FanoutPositive(size, fanout, first, level);
      TurnAdvance(first, level, i, currFanout);
      while counter <= processesOnLevel
        invariant first <= i == first + counter - 1 <= first + level && i < size
        invariant start == TurnStart(first, level, i, currFanout)
        invariant !done ==> start <= size && levelPeer == peers[i]
        invariant !done ==> Seen(size, fanout, id, peers, start, children, childPeers, parentPeer)
        invariant done ==> Seen(size, fanout, id, peers, size, children, childPeers, parentPeer)
        invariant done ==> counter > 1
      {
        if done {
          break;
        }
        NoOverrun(size, fanout, first, level, i, currFanout);
        TurnAdvance(first, level, i, currFanout);
        var j := start;
        while j < start + currFanout
          invariant start <= j <= start + currFanout
          invariant !done && j <= size
          invariant Seen(size, fanout, id, peers, j, children, childPeers, parentPeer)
        {
          if j >= size {
            done := true;
            break;
          }
          TurnIsParent(size, fanout, first, level, i, j);
          SeenStep(size, fanout, id, peers, j, children, childPeers, parentPeer);
          var peer := peers[j];
          if id == i {
            children, childPeers := children + {j}, childPeers + {peer};
          } else if id == j {
            parentPeer := Some(levelPeer);
          } else if levelPeer in childPeers {
            children := children + {j};
          }
          j := j + 1;
        }
        start := start + currFanout;
        i := i + 1;
        levelPeer := peers[i];
        counter := counter + 1;
      }
      if !done {
        NextLevel(size, fanout, first, level);
      }
      processesOnLevel := Min(currFanout * processesOnLevel, remaining);
    }
  }

  lemma NothingSeen(n: nat, m: nat, id: nat, peers: seq<PeerId>)
    requires n == |peers| && n >= 2 && m >= 2 && id < n
    ensures Seen(n, m, id, peers, 1, {}, {}, None)
    ensures IsLevel(n, m, 0, 1)
    ensures forall k | 1 <= k < n :: Parent(n, m, k) == ParentFrom(n, m, 0, 1, k)
  {
  }

  /** The index of the node in turn stays within the list after it is advanced. */
  lemma NoOverrun(n: nat, m: nat, first: nat, level: nat, i: nat, c: nat)
    requires n >= 2 && IsLevel(n, m, first, level) && first <= i < first + level && c >= 1
    requires TurnStart(first, level, i, c) <= n
    ensures i + 1 < n
  {
    if i > first {
      MulMono(1, i - first, c);
    }
  }

  /** The views that replicas a and b compute separately agree: b's peer is among a's child peers exactly when b's
    * parent peer is a's, exactly the root has no parent peer, nobody has two parents, and a counts its children and
    * theirs. */
  lemma ViewsAgree(n: nat, m: nat, peers: seq<PeerId>, a: nat, b: nat,
                   ca: set<nat>, pa: set<PeerId>, ra: Option<PeerId>, cb: set<nat>, pb: set<PeerId>, rb: Option<PeerId>)
    requires n == |peers| && m >= 2 && Distinct(peers) && a < n && b < n
    requires Seen(n, m, a, peers, n, ca, pa, ra) && Seen(n, m, b, peers, n, cb, pb, rb)
    ensures peers[b] in pa <==> rb == Some(peers[a])
    ensures rb == None <==> b == 0
    ensures a != b ==> pa !! pb
    ensures peers[b] in pa ==> b in ca && forall j | 0 <= j < n && peers[j] in pb :: j in ca
  {
    if peers[b] in pa {
      forall j | 0 <= j < n && peers[j] in pb ensures j in ca {
        PeerOfChild(n, m, b, peers, n, j);
      }
    }
  }
}
