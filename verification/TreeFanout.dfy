/** How the replicas of a level share the next one, told without the loop's index arithmetic. */
module TreeFanout {
  import opened Tree
  import opened TreeShape
  import opened Votes

  /** The replicas nearer to the root than d edges. */
  function AboveLevel(n: nat, m: nat, d: nat): set<nat>
    requires m >= 2
  {
    set j: nat | j < n && Depth(n, m, j) < d
  }

  /** The replicas d edges from the root. */
  function OnLevel(n: nat, m: nat, d: nat): set<nat>
    requires m >= 2
  {
    set j: nat | j < n && Depth(n, m, j) == d
  }

  function ChildrenOf(n: nat, m: nat, p: nat): set<nat> {
    set j: nat | j < n && IsChild(n, m, p, j)
  }

  lemma FitsPart(n: nat, m: nat, k: nat, p: nat)
    requires m >= 2 && LevelStart(m, k) <= p < n && p < LevelStart(m, k + 1)
    ensures AboveLevel(n, m, k) == Range(0, LevelStart(m, k))
    ensures OnLevel(n, m, k) == Range(LevelStart(m, k), Min(n, LevelStart(m, k + 1)))
  {
    forall j: nat | j < n
      ensures Depth(n, m, j) < k <==> j < LevelStart(m, k)
      ensures Depth(n, m, j) == k <==> LevelStart(m, k) <= j < LevelStart(m, k + 1)
    {
      var i := LevelOf(m, j);
      DepthOfLevel(n, m, i, j);
      if i < k {
        LevelStartMonotone(m, i + 1, k);
      } else if k < i {
        LevelStartMonotone(m, k + 1, i);
      }
    }
  }

  /** The replicas of the last level have no children. */
  lemma LastLevel(n: nat, m: nat, k: nat, p: nat)
    requires m >= 2 && LevelStart(m, k) <= p < n <= LevelStart(m, k + 1)
    ensures ChildrenOf(n, m, p) == {}
  {
    DepthOfLevel(n, m, k, p);
    forall j | j in ChildrenOf(n, m, p) ensures false {
      var i := LevelOf(m, j);
      DepthOfLevel(n, m, i, j);
      LevelStartMonotone(m, k + 1, i);
    }
  }

  /** A quotient by c is w exactly in the w-th block of size c. */
  lemma QuotientBlock(a: nat, c: nat, w: nat)
    requires c >= 1
    ensures a / c == w <==> w * c <= a < (w + 1) * c
  {
    DivBounds(a, c);
    if w * c <= a < (w + 1) * c {
      DivUnique(a, c, w);
    }
  }

  /** The children of p above the last level, with c to each replica before them. */
  lemma ChildrenShare(n: nat, m: nat, k: nat, p: nat)
    requires m >= 2 && LevelStart(m, k) <= p < LevelStart(m, k + 1) < n
    ensures IsLevel(n, m, LevelStart(m, k), Pow(m, k))
    ensures var c := CurrFanout(n, m, LevelStart(m, k), Pow(m, k));
      var lo := LevelStart(m, k + 1) + (p - LevelStart(m, k)) * c;
      forall j: nat | j < n :: j in ChildrenOf(n, m, p) <==> lo <= j < lo + c
  {
    var first, next := LevelStart(m, k), LevelStart(m, k + 1);
    LevelSize(m, k);
    LevelSize(m, k + 1);
    SearchFromLevel(n, m, k);
    var c := CurrFanout(n, m, first, Pow(m, k));
    FanoutPositive(n, m, first, Pow(m, k));
    var w := p - first;
    var lo := next + w * c;
    Distribute(w + 1, c);
    DepthOfLevel(n, m, k, p);
    forall j: nat | j < n ensures j in ChildrenOf(n, m, p) <==> lo <= j < lo + c {
      if next <= j < LevelStart(m, k + 2) {
        ParentInLevel(n, m, k, j);
        QuotientBlock(j - next, c, w);
      } else {
        NotNextLevel(n, m, k, p, j);
        MulMono(w + 1, Pow(m, k), c);
        MulMono(c, m, Pow(m, k));
        assert (w + 1) * c <= Pow(m, k) * c == c * Pow(m, k) <= m * Pow(m, k) == Pow(m, k + 1);
        MulMono(0, w, c);
      }
    }
  }

  lemma NotNextLevel(n: nat, m: nat, k: nat, p: nat, j: nat)
    requires m >= 2 && p < n && j < n && Depth(n, m, p) == k
    requires j < LevelStart(m, k + 1) || LevelStart(m, k + 2) <= j
    ensures j !in ChildrenOf(n, m, p)
  {
    var i := LevelOf(m, j);
    DepthOfLevel(n, m, i, j);
    if i == k + 1 {
      assert false;
    }
  }

  /** p has at most c children, and exactly c if a later replica of its level has any. */
  predicate Gets(n: nat, m: nat, p: nat, c: int)
    requires m >= 2 && p < n
  {
    && |ChildrenOf(n, m, p)| <= c
    && ((exists q: nat | p < q < n :: Depth(n, m, q) == Depth(n, m, p) && ChildrenOf(n, m, q) != {}) ==>
          |ChildrenOf(n, m, p)| == c)
  }

  /** What is left from a level on, shared evenly by its replicas, but at most m to each. */
  function EvenShare(rest: nat, level: nat, m: nat): nat
    requires level >= 1
  {
    Min(rest / level, m)
  }

  /** Let first be the number of replicas nearer to the root than p and level the number of those as near.  p has at
    * most min((n - first) / level, m) children, and exactly that many if a later replica of its level has any. */
  lemma LevelFanout(n: nat, m: nat, p: nat)
    requires m >= 2 && p < n
    ensures var first, level := |AboveLevel(n, m, Depth(n, m, p))|, |OnLevel(n, m, Depth(n, m, p))|;
      level >= 1 && first < n && Gets(n, m, p, EvenShare(n - first, level, m))
  {
    var k := LevelOf(m, p);
    DepthOfLevel(n, m, k, p);
    LevelCounts(n, m, k, p);
    hide *;
    FanoutAt(n, m, k, p, |AboveLevel(n, m, k)|, |OnLevel(n, m, k)|);
  }

  lemma FanoutAt(n: nat, m: nat, k: nat, p: nat, first: nat, level: nat)
    requires m >= 2 && level >= 1 && LevelStart(m, k) <= p < n && p < LevelStart(m, k + 1)
    requires first == LevelStart(m, k) && (LevelStart(m, k + 1) <= n ==> level == LevelStart(m, k + 1) - first)
    ensures Gets(n, m, p, EvenShare(n - first, level, m))
  {
    hide *;
    if n <= LevelStart(m, k + 1) {
      LastLevelFanout(n, m, k, p, EvenShare(n - first, level, m));
    } else {
      FullLevelFanout(n, m, k, p);
    }
  }

  lemma LevelCounts(n: nat, m: nat, k: nat, p: nat)
    requires m >= 2 && LevelStart(m, k) <= p < n && p < LevelStart(m, k + 1)
    ensures |AboveLevel(n, m, k)| == LevelStart(m, k)
    ensures LevelStart(m, k + 1) <= n ==> |OnLevel(n, m, k)| == LevelStart(m, k + 1) - LevelStart(m, k)
    ensures |OnLevel(n, m, k)| >= 1
  {
    FitsPart(n, m, k, p);
    hide LevelStart, AboveLevel, OnLevel;
  }

  lemma LastLevelFanout(n: nat, m: nat, k: nat, p: nat, c: nat)
    requires m >= 2 && LevelStart(m, k) <= p < n <= LevelStart(m, k + 1)
    ensures Gets(n, m, p, c)
  {
    hide LevelStart, Depth;
    LastLevel(n, m, k, p);
    forall q: nat | p < q < n ensures ChildrenOf(n, m, q) == {} {
      LastLevel(n, m, k, q);
    }
  }

  lemma FullLevelFanout(n: nat, m: nat, k: nat, p: nat)
    requires m >= 2 && LevelStart(m, k) <= p < LevelStart(m, k + 1) < n
    ensures LevelStart(m, k + 1) - LevelStart(m, k) == Pow(m, k) >= 1
    ensures Gets(n, m, p, EvenShare(n - LevelStart(m, k), Pow(m, k), m))
  {
    LevelSize(m, k);
    DepthOfLevel(n, m, k, p);
    ChildrenShare(n, m, k, p);
    var c := CurrFanout(n, m, LevelStart(m, k), Pow(m, k));
    assert c == EvenShare(n - LevelStart(m, k), Pow(m, k), m);
    hide LevelStart, Pow, Depth, CurrFanout, EvenShare, Geo;
    SharedOut(n, m, k, p, c);
  }

  lemma SharedOut(n: nat, m: nat, k: nat, p: nat, c: nat)
    requires m >= 2 && LevelStart(m, k) <= p < LevelStart(m, k + 1) < n && Depth(n, m, p) == k
    requires IsLevel(n, m, LevelStart(m, k), Pow(m, k)) && c == CurrFanout(n, m, LevelStart(m, k), Pow(m, k))
    requires var lo := LevelStart(m, k + 1) + (p - LevelStart(m, k)) * c;
      forall j: nat | j < n :: j in ChildrenOf(n, m, p) <==> lo <= j < lo + c
    ensures Gets(n, m, p, c)
  {
    hide LevelStart, Pow, Depth, CurrFanout, IsLevel, Geo;
    var w := p - LevelStart(m, k);
    MulMono(0, w, c);
    var lo := LevelStart(m, k + 1) + w * c;
    ChildRange(n, m, p, lo, c);
    if q: nat :| p < q < n && Depth(n, m, q) == k && ChildrenOf(n, m, q) != {} {
      LaterChild(n, m, k, p, q);
    }
  }

  lemma ChildRange(n: nat, m: nat, p: nat, lo: nat, c: nat)
    requires forall j: nat | j < n :: j in ChildrenOf(n, m, p) <==> lo <= j < lo + c
    ensures |ChildrenOf(n, m, p)| <= c && (lo + c <= n ==> |ChildrenOf(n, m, p)| == c)
  {
    hide IsChild;
    if n <= lo {
      assert ChildrenOf(n, m, p) == {};
    } else {
      assert ChildrenOf(n, m, p) == Range(lo, Min(lo + c, n));
    }
  }

  /** A child of a later replica leaves room for all children of p. */
  lemma LaterChild(n: nat, m: nat, k: nat, p: nat, q: nat)
    requires m >= 2 && LevelStart(m, k) <= p < LevelStart(m, k + 1) < n && p < q < n
    requires Depth(n, m, q) == k && ChildrenOf(n, m, q) != {}
    ensures IsLevel(n, m, LevelStart(m, k), Pow(m, k))
    ensures var c := CurrFanout(n, m, LevelStart(m, k), Pow(m, k));
      LevelStart(m, k + 1) + (p - LevelStart(m, k)) * c + c <= n
  {
    var i := LevelOf(m, q);
    DepthOfLevel(n, m, i, q);
    ChildrenShare(n, m, k, p);
    ChildrenShare(n, m, k, q);
    var c, first := CurrFanout(n, m, LevelStart(m, k), Pow(m, k)), LevelStart(m, k);
    var j :| j in ChildrenOf(n, m, q);
    Distribute(p - first + 1, c);
    MulMono(p - first + 1, q - first, c);
  }

  /** The children of an earlier replica come before those of a later one, and no level skips ahead. */
  lemma InOrder(n: nat, m: nat, i: nat, j: nat)
    requires m >= 2 && 1 <= i <= j < n
    ensures Parent(n, m, i) <= Parent(n, m, j)
    ensures Depth(n, m, i) <= Depth(n, m, j)
  {
    ParentFromMonotone(n, m, 0, 1, i, j);
    var a := LevelOf(m, i);
    var b := LevelOf(m, j);
    DepthOfLevel(n, m, a, i);
    DepthOfLevel(n, m, b, j);
    if b < a {
      LevelStartMonotone(m, b + 1, a);
    }
  }
}
