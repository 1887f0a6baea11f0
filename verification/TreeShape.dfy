/** Depth and size of the tree: levels are as full as they can be, no subtree below the root is a
  * quorum, and the number of children a replica counts is its whole subtree exactly in trees at
  * most three edges deep. */
module TreeShape {
  import opened Tree
  import opened Blocks
  import opened Votes

  // ---------- levels ----------

  function Pow(m: nat, k: nat): nat {
    if k == 0 then 1 else m * Pow(m, k - 1)
  }

  /** 1 + m + ... + m^d. */
  function Geo(m: nat, d: nat): nat {
    if d == 0 then 1 else 1 + m * Geo(m, d - 1)
  }

  /** The index at which level k starts when all levels above are full. */
  function LevelStart(m: nat, k: nat): nat {
    if k == 0 then 0 else Geo(m, k - 1)
  }

  lemma {:induction false} LevelSize(m: nat, k: nat)
    requires m >= 2
    ensures LevelStart(m, k + 1) == LevelStart(m, k) + Pow(m, k)
    ensures Pow(m, k) >= 1 && (k > 0 ==> Pow(m, k) >= 2)
    ensures LevelStart(m, k) >= k
  {
    if k > 0 {
      LevelSize(m, k - 1);
      assert Geo(m, k) == 1 + m * Geo(m, k - 1);
      if k > 1 {
        assert m * (Geo(m, k - 2) + Pow(m, k - 1)) == m * Geo(m, k - 2) + m * Pow(m, k - 1);
      }
      MulMono(2, m, Pow(m, k - 1));
    }
  }

  lemma {:induction false} LevelStartMonotone(m: nat, a: nat, b: nat)
    requires m >= 2 && a <= b
    ensures LevelStart(m, a) <= LevelStart(m, b)
    decreases b
  {
    if a < b {
      LevelStartMonotone(m, a, b - 1);
      LevelSize(m, b - 1);
    }
  }

  /** Parents of later nodes may be searched from any full level above them. */
  lemma {:induction false} SearchFromLevel(n: nat, m: nat, k: nat)
    requires m >= 2 && LevelStart(m, k + 1) <= n && n >= 2
    ensures IsLevel(n, m, LevelStart(m, k), Pow(m, k))
    ensures LevelStart(m, k) + Pow(m, k) == LevelStart(m, k + 1)
    ensures forall j | LevelStart(m, k + 1) <= j < n ::
      Parent(n, m, j) == ParentFrom(n, m, LevelStart(m, k), Pow(m, k), j)
  {
    LevelSize(m, k);
    if k > 0 {
      LevelSize(m, k - 1);
      SearchFromLevel(n, m, k - 1);
      var first, level := LevelStart(m, k - 1), Pow(m, k - 1);
      var c := CurrFanout(n, m, first, level);
      MulMono(c, m, level);
      forall j | LevelStart(m, k + 1) <= j < n
        ensures Parent(n, m, j) == ParentFrom(n, m, LevelStart(m, k), Pow(m, k), j)
      {
        NotLastIsFull(n, m, first, level);
      }
    }
  }

  /** The parent of a node of level k + 1, with the fan-out used for level k. */
  lemma ParentInLevel(n: nat, m: nat, k: nat, j: nat)
    requires m >= 2 && LevelStart(m, k + 1) <= j < n && j < LevelStart(m, k + 2)
    ensures var first, level := LevelStart(m, k), Pow(m, k);
      && IsLevel(n, m, first, level)
      && var c := CurrFanout(n, m, first, level);
      && 1 <= c <= m
      && j - LevelStart(m, k + 1) < c * level
      && Parent(n, m, j) == first + (j - LevelStart(m, k + 1)) / c
      && first <= Parent(n, m, j) < first + level
  {
    LevelSize(m, k);
    LevelSize(m, k + 1);
    SearchFromLevel(n, m, k);
    var first, level := LevelStart(m, k), Pow(m, k);
    var c := CurrFanout(n, m, first, level);
    FanoutPositive(n, m, first, level);
    if j >= first + level + c * level {
      NotLastIsFull(n, m, first, level);
    }
    QuotientBelow(j - first - level, c, level);
  }

  // ---------- depth ----------

  function Depth(n: nat, m: nat, j: nat): nat
    requires m >= 2 && j < n
  {
    if j == 0 then 0 else 1 + Depth(n, m, Parent(n, m, j))
  }

  lemma {:induction false} DepthOfLevel(n: nat, m: nat, k: nat, j: nat)
    requires m >= 2 && j < n && LevelStart(m, k) <= j < LevelStart(m, k + 1)
    ensures Depth(n, m, j) == k
    decreases k
  {
    LevelSize(m, k);
    if k > 0 {
      ParentInLevel(n, m, k - 1, j);
      LevelSize(m, k - 1);
      DepthOfLevel(n, m, k - 1, Parent(n, m, j));
    }
  }

  /** Every node lies in a level. */
  lemma LevelOf(m: nat, j: nat) returns (k: nat)
    requires m >= 2
    ensures LevelStart(m, k) <= j < LevelStart(m, k + 1)
  {
    k := 0;
    LevelSize(m, 0);
    while LevelStart(m, k + 1) <= j
      invariant LevelStart(m, k) <= j
      decreases j - k
    {
      LevelSize(m, k + 1);
      k := k + 1;
    }
  }

  lemma DepthMonotone(n: nat, m: nat, i: nat, j: nat)
    requires m >= 2 && i <= j < n
    ensures Depth(n, m, i) <= Depth(n, m, j)
  {
    var a := LevelOf(m, i);
    var b := LevelOf(m, j);
    DepthOfLevel(n, m, a, i);
    DepthOfLevel(n, m, b, j);
    if b < a {
      LevelStartMonotone(m, b + 1, a);
    }
  }

  /** The tree is no deeper than it has to be: its height is the least d with 1 + m + ... + m^d >= n. */
  lemma HeightIsLeast(n: nat, m: nat)
    requires m >= 2 && n >= 1
    ensures forall j | 0 <= j < n :: Depth(n, m, j) <= Depth(n, m, n - 1)
    ensures Geo(m, Depth(n, m, n - 1)) >= n
    ensures forall d | 0 <= d < Depth(n, m, n - 1) :: Geo(m, d) < n
  {
    var k := LevelOf(m, n - 1);
    DepthOfLevel(n, m, k, n - 1);
    forall j | 0 <= j < n ensures Depth(n, m, j) <= Depth(n, m, n - 1) {
      DepthMonotone(n, m, j, n - 1);
    }
    forall d | 0 <= d < k ensures Geo(m, d) < n {
      LevelStartMonotone(m, d + 1, k);
    }
  }

  // ---------- subtrees ----------

  /** j is v or lies below it. */
  predicate InSubtree(n: nat, m: nat, v: nat, j: nat)
    requires m >= 2 && j < n
  {
    j == v || (j >= 1 && InSubtree(n, m, v, Parent(n, m, j)))
  }

  function Subtree(n: nat, m: nat, v: nat): set<nat>
    requires m >= 2
  {
    set j: nat | j < n && InSubtree(n, m, v, j)
  }

  lemma {:induction false} SubtreeDepth(n: nat, m: nat, v: nat, j: nat)
    requires m >= 2 && j < n && InSubtree(n, m, v, j)
    ensures v <= j && Depth(n, m, v) <= Depth(n, m, j)
    ensures v != j ==> Depth(n, m, v) < Depth(n, m, j)
  {
    if j != v {
      SubtreeDepth(n, m, v, Parent(n, m, j));
    }
  }

  lemma {:induction false} SubtreeTransitive(n: nat, m: nat, u: nat, v: nat, j: nat)
    requires m >= 2 && j < n && v < n && InSubtree(n, m, v, j) && InSubtree(n, m, u, v)
    ensures InSubtree(n, m, u, j)
  {
    if j != v {
      SubtreeTransitive(n, m, u, v, Parent(n, m, j));
    }
  }

  /** The ancestor of v next to the root. */
  lemma {:induction false} TopAncestor(n: nat, m: nat, v: nat) returns (t: nat)
    requires m >= 2 && 1 <= v < n
    ensures 1 <= t <= v && t < LevelStart(m, 2) && InSubtree(n, m, t, v)
  {
    LevelSize(m, 1);
    if v < LevelStart(m, 2) {
      t := v;
    } else {
      var k := LevelOf(m, v);
      if k <= 1 {
        LevelStartMonotone(m, k + 1, 2);
      }
      ParentInLevel(n, m, k - 1, v);
      LevelStartMonotone(m, 1, k - 1);
      t := TopAncestor(n, m, Parent(n, m, v));
    }
  }

  // ---------- counting children ----------

  /** Children and grandchildren lie in the subtree. */
  lemma CountedInSubtree(n: nat, m: nat, v: nat)
    requires m >= 2 && v < n
    ensures Counted(n, m, v, n) + {v} <= Subtree(n, m, v)
    ensures v !in Counted(n, m, v, n)
  {
    forall j | j in Counted(n, m, v, n) ensures j in Subtree(n, m, v) && j != v {
      var p := Parent(n, m, j);
      assert InSubtree(n, m, v, v);
      assert InSubtree(n, m, v, p);
    }
  }

  /** A node less than three levels below v is counted. */
  lemma NearIsCounted(n: nat, m: nat, v: nat, j: nat)
    requires m >= 2 && v < n && j < n && InSubtree(n, m, v, j) && j != v
    requires Depth(n, m, j) <= Depth(n, m, v) + 2
    ensures j in Counted(n, m, v, n)
  {
    var p := Parent(n, m, j);
    if p != v {
      SubtreeDepth(n, m, v, p);
      var g := Parent(n, m, p);
      SubtreeDepth(n, m, v, g);
    }
  }

  /** The leftmost path goes from level start to level start. */
  lemma LeftmostPath(n: nat, m: nat, k: nat)
    requires m >= 2 && LevelStart(m, k + 1) < n
    ensures LevelStart(m, k) < n && Parent(n, m, LevelStart(m, k + 1)) == LevelStart(m, k)
  {
    LevelSize(m, k);
    LevelSize(m, k + 1);
    ParentInLevel(n, m, k, LevelStart(m, k + 1));
  }

  /** numberOfChildren + 1 is the size of the subtree at every replica below the root, exactly when
    * the tree is at most three edges deep. */
  lemma CountIsSubtreeSize(n: nat, m: nat)
    requires m >= 2 && n >= 2
    ensures (forall v | 1 <= v < n :: |Counted(n, m, v, n)| + 1 == |Subtree(n, m, v)|)
      <==> Depth(n, m, n - 1) <= 3
  {
    if Depth(n, m, n - 1) <= 3 {
      forall v | 1 <= v < n ensures |Counted(n, m, v, n)| + 1 == |Subtree(n, m, v)| {
        CountWhenShallow(n, m, v);
      }
    } else {
      CountWhenDeep(n, m);
    }
  }

  lemma CountWhenShallow(n: nat, m: nat, v: nat)
    requires m >= 2 && 1 <= v < n && Depth(n, m, n - 1) <= 3
    ensures Counted(n, m, v, n) + {v} == Subtree(n, m, v)
    ensures |Counted(n, m, v, n)| + 1 == |Subtree(n, m, v)|
  {
    CountedInSubtree(n, m, v);
    forall j | j in Subtree(n, m, v) && j != v ensures j in Counted(n, m, v, n) {
      DepthMonotone(n, m, j, n - 1);
      NearIsCounted(n, m, v, j);
    }
  }

  lemma CountWhenDeep(n: nat, m: nat)
    requires m >= 2 && n >= 2 && Depth(n, m, n - 1) >= 4
    ensures |Counted(n, m, 1, n)| + 1 < |Subtree(n, m, 1)|
  {
    var k := LevelOf(m, n - 1);
    DepthOfLevel(n, m, k, n - 1);
    LevelStartMonotone(m, 4, k);
    var a := LevelStart(m, 4);
    LeftmostPath(n, m, 3);
    LeftmostPath(n, m, 2);
    LeftmostPath(n, m, 1);
    assert LevelStart(m, 1) == 1;
    assert InSubtree(n, m, 1, 1);
    assert InSubtree(n, m, 1, LevelStart(m, 2));
    assert InSubtree(n, m, 1, LevelStart(m, 3));
    assert a in Subtree(n, m, 1);
    LevelSize(m, 1);
    LevelSize(m, 2);
    LevelSize(m, 3);
    assert a !in Counted(n, m, 1, n) && a != 1;
    CountedInSubtree(n, m, 1);
    SubsetSize(Counted(n, m, 1, n) + {1} + {a}, Subtree(n, m, 1));
  }

  // ---------- subtrees are no quorums ----------

  /** lo <= j < hi. */
  function Range(lo: nat, hi: nat): (r: set<nat>)
    requires lo <= hi
    ensures forall j: nat :: j in r <==> lo <= j < hi
    ensures |r| == hi - lo
    decreases hi - lo
  {
    if lo == hi then {} else Range(lo, hi - 1) + {hi - 1}
  }

  /** Which nodes of level k + 1 lie below v, a child of the root: its share, with c children to a node. */
  predicate InShare(m: nat, k: nat, v: nat, c: nat, j: nat) {
    v >= 1 && LevelStart(m, k + 1) + (v - 1) * (c * Share(m, k)) <= j < LevelStart(m, k + 1) + v * (c * Share(m, k))
  }

  /** The number of nodes of level k >= 1 below each child of the root. */
  function Share(m: nat, k: nat): nat {
    if k == 0 then 1 else Pow(m, k - 1)
  }

  /** A division by c is within a block of size s exactly when the dividend is within one of size c * s. */
  lemma DivBlock(a: nat, c: nat, s: nat, w: nat)
    requires c >= 1
    ensures w * s <= a / c <==> w * (c * s) <= a
  {
    assert w * (c * s) == (w * s) * c;
    DivBounds(a, c);
    if w * s <= a / c {
      MulMono(w * s, a / c, c);
    } else {
      MulMono(a / c + 1, w * s, c);
    }
  }

  /** Level k of the subtree of v is a contiguous share of level k; so is level k + 1, with the fan-out of level k. */
  lemma {:induction false} SubtreeShare(n: nat, m: nat, k: nat, v: nat, j: nat)
    requires m >= 2 && k >= 1 && 1 <= v < LevelStart(m, 2)
    requires LevelStart(m, k + 1) <= j < n && j < LevelStart(m, k + 2)
    ensures IsLevel(n, m, LevelStart(m, k), Pow(m, k))
    ensures InSubtree(n, m, v, j) <==> InShare(m, k, v, CurrFanout(n, m, LevelStart(m, k), Pow(m, k)), j)
    decreases k
  {
    ParentInLevel(n, m, k, j);
    LevelSize(m, k);
    var p := Parent(n, m, j);
    var c := CurrFanout(n, m, LevelStart(m, k), Pow(m, k));
    var a := j - LevelStart(m, k + 1);
    LevelStartMonotone(m, 2, k + 1);
    assert InSubtree(n, m, v, j) <==> InSubtree(n, m, v, p);
    LevelShare(n, m, k, v, p);
    DivBlock(a, c, Share(m, k), v - 1);
    DivBlock(a, c, Share(m, k), v);
  }

  /** A node of a full level k >= 1 lies below v exactly when it is in v's share. */
  lemma {:induction false} LevelShare(n: nat, m: nat, k: nat, v: nat, p: nat)
    requires m >= 2 && k >= 1 && 1 <= v < LevelStart(m, 2)
    requires LevelStart(m, k) <= p < LevelStart(m, k + 1) <= n
    ensures InSubtree(n, m, v, p) <==>
      LevelStart(m, k) + (v - 1) * Share(m, k) <= p < LevelStart(m, k) + v * Share(m, k)
    decreases k, 0
  {
    LevelSize(m, k);
    if k == 1 {
      assert LevelStart(m, 1) == 1 && Share(m, 1) == 1;
      var q := Parent(n, m, p);
      ParentInLevel(n, m, 0, p);
      assert q == 0;
      assert InSubtree(n, m, v, p) <==> p == v;
    } else {
      SubtreeShare(n, m, k - 1, v, p);
      LevelSize(m, k - 1);
      FullLevel(n, m, k - 1);
      assert m * Share(m, k - 1) == Share(m, k);
    }
  }

  /** A level whose children are a full level has the full fan-out. */
  lemma FullLevel(n: nat, m: nat, k: nat)
    requires m >= 2 && n >= 2 && LevelStart(m, k + 2) <= n
    ensures IsLevel(n, m, LevelStart(m, k), Pow(m, k))
    ensures CurrFanout(n, m, LevelStart(m, k), Pow(m, k)) == m
  {
    LevelSize(m, k);
    LevelSize(m, k + 1);
    SearchFromLevel(n, m, k);
    MulMono(CurrFanout(n, m, LevelStart(m, k), Pow(m, k)), m, Pow(m, k));
    NotLastIsFull(n, m, LevelStart(m, k), Pow(m, k));
  }

  /** The part of the subtree of v in levels 1 to k. */
  function SubtreeTo(n: nat, m: nat, v: nat, k: nat): set<nat>
    requires m >= 2
  {
    set j: nat | j < n && j < LevelStart(m, k + 1) && InSubtree(n, m, v, j)
  }

  /** The share of v in the full level k. */
  function ShareLo(m: nat, k: nat, v: nat): nat
    requires v >= 1
  {
    LevelStart(m, k) + (v - 1) * Share(m, k)
  }

  lemma ShareBounds(m: nat, k: nat, v: nat)
    requires m >= 2 && k >= 1 && 1 <= v < LevelStart(m, 2)
    ensures LevelStart(m, k) <= ShareLo(m, k, v)
    ensures ShareLo(m, k, v) + Share(m, k) == LevelStart(m, k) + v * Share(m, k) <= LevelStart(m, k + 1)
    ensures Geo(m, k - 1) == Share(m, k) + if k == 1 then 0 else Geo(m, k - 2)
  {
    var s := Share(m, k);
    LevelSize(m, k);
    LevelSize(m, k - 1);
    SecondLevel(m);
    MulMono(v, m, s);
    MulMono(0, v - 1, s);
    Distribute(v, s);
    assert Pow(m, k) == m * s;
  }

  lemma SecondLevel(m: nat)
    ensures LevelStart(m, 2) == 1 + m
  {
    assert Geo(m, 1) == 1 + m * Geo(m, 0);
  }

  lemma Distribute(v: nat, s: nat)
    requires v >= 1
    ensures (v - 1) * s + s == v * s
  {
  }

  lemma ShareIsSubtree(n: nat, m: nat, v: nat, k: nat)
    requires m >= 2 && k >= 1 && 1 <= v < LevelStart(m, 2) && LevelStart(m, k + 1) <= n
    ensures forall j: nat {:trigger InSubtree(n, m, v, j)} | LevelStart(m, k) <= j < LevelStart(m, k + 1) ::
      InSubtree(n, m, v, j) <==> ShareLo(m, k, v) <= j < ShareLo(m, k, v) + Share(m, k)
  {
    ShareBounds(m, k, v);
    forall j: nat | LevelStart(m, k) <= j < LevelStart(m, k + 1)
      ensures InSubtree(n, m, v, j) <==> ShareLo(m, k, v) <= j < ShareLo(m, k, v) + Share(m, k)
    {
      LevelShare(n, m, k, v, j);
    }
  }

  /** In full levels every child of the root has the same number of nodes below it. */
  lemma {:induction false} SubtreeToSize(n: nat, m: nat, v: nat, k: nat)
    requires m >= 2 && k >= 1 && 1 <= v < LevelStart(m, 2) && LevelStart(m, k + 1) <= n
    ensures |SubtreeTo(n, m, v, k)| == Geo(m, k - 1)
  {
    hide ShareLo, Share, Geo, Range;
    ShareBounds(m, k, v);
    ShareIsSubtree(n, m, v, k);
    var part := Range(ShareLo(m, k, v), ShareLo(m, k, v) + Share(m, k));
    LevelStartMonotone(m, k, k + 1);
    if k == 1 {
      assert !InSubtree(n, m, v, 0);
      FirstLevel(m);
      assert SubtreeTo(n, m, v, 1) == part;
    } else {
      SubtreeToSize(n, m, v, k - 1);
      assert SubtreeTo(n, m, v, k) == SubtreeTo(n, m, v, k - 1) + part;
    }
  }

  lemma FirstLevel(m: nat)
    ensures LevelStart(m, 1) == 1
  {
  }

  /** With the nodes of the last level, which may be only partly filled. */
  lemma SubtreeBound(n: nat, m: nat, v: nat, k: nat)
    requires m >= 2 && k >= 1 && 1 <= v < LevelStart(m, 2)
    requires LevelStart(m, k + 1) < n <= LevelStart(m, k + 2)
    ensures IsLevel(n, m, LevelStart(m, k), Pow(m, k))
    ensures var c := CurrFanout(n, m, LevelStart(m, k), Pow(m, k));
      |Subtree(n, m, v)| <= Geo(m, k - 1) + Min(n - LevelStart(m, k + 1), c * Pow(m, k - 1))
  {
    SubtreeToSize(n, m, v, k);
    LevelStartMonotone(m, 2, k + 1);
    SearchFromLevel(n, m, k);
    var last := LastPart(n, m, v, k);
    LastPartSize(n, m, v, k);
    assert Subtree(n, m, v) == SubtreeTo(n, m, v, k) + last;
  }

  /** The nodes below v in level k + 1, if that is the last one. */
  function LastPart(n: nat, m: nat, v: nat, k: nat): set<nat>
    requires m >= 2
  {
    set j: nat | j < n && LevelStart(m, k + 1) <= j && InSubtree(n, m, v, j)
  }

  lemma LastPartSize(n: nat, m: nat, v: nat, k: nat)
    requires m >= 2 && k >= 1 && 1 <= v < LevelStart(m, 2)
    requires LevelStart(m, k + 1) < n <= LevelStart(m, k + 2)
    requires IsLevel(n, m, LevelStart(m, k), Pow(m, k))
    ensures |LastPart(n, m, v, k)| <= n - LevelStart(m, k + 1)
    ensures |LastPart(n, m, v, k)| <= CurrFanout(n, m, LevelStart(m, k), Pow(m, k)) * Pow(m, k - 1)
  {
    var c, first := CurrFanout(n, m, LevelStart(m, k), Pow(m, k)), LevelStart(m, k + 1);
    var s := c * Share(m, k);
    var lo := first + (v - 1) * s;
    Distribute(v, s);
    MulMono(0, v - 1, s);
    MulMono(0, c, Share(m, k));
    assert lo + s == first + v * s;
    forall j | j in LastPart(n, m, v, k) ensures j in Range(first, n) && j in Range(lo, lo + s) {
      SubtreeShare(n, m, k, v, j);
    }
    SubsetSize(LastPart(n, m, v, k), Range(first, n));
    SubsetSize(LastPart(n, m, v, k), Range(lo, lo + s));
  }

  // Three ways to stay below two thirds: a is the size of a child's subtree in the full levels, x
  // what it gets of the r nodes of the last level, others the size of all the full levels.

  lemma LightLastLevel(n: nat, a: nat, x: nat, r: nat, others: nat)
    requires n == 1 + others + r && others >= 2 * a && x <= r && x <= a
    ensures a + x < n - (n - 1) / 3
  {
  }

  lemma WideTree(n: nat, a: nat, x: nat, r: nat, others: nat)
    requires n == 1 + others + r && others >= 3 * a && 3 * x <= 2 * r
    ensures a + x < n - (n - 1) / 3
  {
  }

  lemma BinaryTree(n: nat, a: nat, p: nat, x: nat, r: nat)
    requires n == 1 + 2 * a + r && a == 2 * p - 1 && x <= 2 * p <= r
    ensures a + x < n - (n - 1) / 3
  {
  }

  /** With the fan-out of the last full level, whose share per child of the root is p. */
  lemma BelowTwoThirds(n: nat, m: nat, a: nat, p: nat, r: nat)
    requires m >= 2 && p >= 1 && r >= 1 && a >= p && (m - 1) * a == m * p - 1
    requires n == 1 + m * a + r
    ensures m * p >= 1
    ensures a + Min(r, Min((m * p + r) / (m * p), m) * p) < n - (n - 1) / 3
  {
    MulMono(1, m, p);
    var level, others := m * p, m * a;
    var c := Min((level + r) / level, m);
    var cp := c * p;
    MulMono(2, m, a);
    if c <= 1 {
      MulMono(c, 1, p);
      LightLastLevel(n, a, Min(r, cp), r, others);
    } else if m == 2 {
      LastFanout(m, p, r, c);
      BinaryTree(n, a, p, Min(r, cp), r);
    } else {
      LastFanout(m, p, r, c);
      MulMono(3, m, a);
      WideTree(n, a, Min(r, cp), r, others);
    }
  }

  /** A fan-out above one needs that many full rounds of the level below it. */
  lemma LastFanout(m: nat, p: nat, r: nat, c: nat)
    requires m >= 2 && p >= 1 && m * p >= 1 && c == Min((m * p + r) / (m * p), m) && c >= 2
    ensures m == 2 ==> c * p == 2 * p <= r
    ensures m >= 3 ==> 3 * (c * p) <= 2 * r
  {
    Rounds(m * p, r, c);
    Swap(c, m, p);
    MulMono(2, c, p);
    if m >= 3 {
      MulMono(3, m, c * p - p);
      Spread(m, c * p, p);
    }
  }

  lemma Rounds(level: nat, r: nat, c: nat)
    requires level >= 1 && c <= (level + r) / level
    ensures c * level <= level + r
  {
    DivBounds(level + r, level);
    MulMono(c, (level + r) / level, level);
  }

  lemma Swap(c: nat, m: nat, p: nat)
    ensures c * (m * p) == m * (c * p)
  {
  }

  lemma Spread(m: nat, a: nat, b: nat)
    requires b <= a
    ensures m * (a - b) == m * a - m * b
  {
  }

  lemma {:induction false} GeoClosed(m: nat, k: nat)
    requires m >= 2
    ensures (m - 1) * Geo(m, k) == m * Pow(m, k) - 1
    ensures Geo(m, k) >= Pow(m, k) >= 1
  {
    if k > 0 {
      GeoClosed(m, k - 1);
      var g, p := Geo(m, k - 1), Pow(m, k - 1);
      assert (m - 1) * (1 + m * g) == (m - 1) + m * ((m - 1) * g);
      assert m * (m * p - 1) == m * (m * p) - m;
      LevelSize(m, k);
    }
  }

  /** A child of the root in a tree of more than two levels. */
  lemma ChildSubtree(n: nat, m: nat, v: nat)
    requires m >= 2 && 1 <= v < LevelStart(m, 2) < n
    ensures |Subtree(n, m, v)| < n - (n - 1) / 3
  {
    hide Subtree, InSubtree;
    var d := LevelOf(m, n - 1);
    if d <= 1 {
      LevelStartMonotone(m, d + 1, 2);
    }
    var k := d - 1;
    SubtreeBound(n, m, v, k);
    LevelSize(m, k);
    GeoClosed(m, k - 1);
    BelowTwoThirds(n, m, Geo(m, k - 1), Pow(m, k - 1), n - LevelStart(m, k + 1));
  }

  /** In a tree of two levels the children of the root are leaves. */
  lemma LeafSubtree(n: nat, m: nat, v: nat)
    requires m >= 2 && 1 <= v < n <= LevelStart(m, 2)
    ensures Subtree(n, m, v) == {v}
  {
    forall j | j in Subtree(n, m, v) ensures j == v {
      if j > 0 {
        LevelSize(m, 1);
        ParentInLevel(n, m, 0, j);
        assert Parent(n, m, j) == 0 && !InSubtree(n, m, v, 0);
      }
    }
    assert InSubtree(n, m, v, v);
  }

  /** No proper subtree is a quorum: below the root every subtree has fewer than nmajority members. */
  lemma NoSubtreeQuorum(c: Config, m: nat, v: nat)
    requires m >= 2 && 1 <= v < c.n
    ensures |Subtree(c.n, m, v)| < c.NMajority()
  {
    hide LevelStart;
    var n := c.n;
    var t := TopAncestor(n, m, v);
    forall j | j in Subtree(n, m, v) ensures j in Subtree(n, m, t) {
      SubtreeTransitive(n, m, t, v, j);
    }
    SubsetSize(Subtree(n, m, v), Subtree(n, m, t));
    if n <= LevelStart(m, 2) {
      LeafSubtree(n, m, t);
    } else {
      ChildSubtree(n, m, t);
    }
  }
}
