/** Aggregation of the votes for one block up the tree, with replica 0 proposing.
  *
  * Leaves send their vote to their parent; an internal replica collects its own signature and what
  * its children send, and relays once numberOfChildren + 1 signers are in.  Messages arrive in any
  * order, each once, and are verified asynchronously.  A certificate is modelled by its signer set and the bag of
  * signatures summed
  * into it; verification needs the two to match. */
module Convergecast {
  import opened Blocks
  import opened Votes
  import opened Tree
  import opened TreeShape

  datatype Gathered = Gathered(signers: set<nat>, parts: multiset<nat>) {
    /** Whether the aggregate signature checks against the keys of the signers: every signer's
      * signature is in the sum exactly once. */
    predicate Verifies() {
      parts == multiset(signers)
    }
  }

  function Single(v: nat): Gathered {
    Gathered({v}, multiset{v})
  }

  function Merge(a: Gathered, b: Gathered): Gathered {
    Gathered(a.signers + b.signers, a.parts + b.parts)
  }

  /** n replicas, fan-out m; rootSigns says whether the proposer's own signature is in its certificate. */
  datatype Net = Net(n: nat, m: nat, rootSigns: bool) {
    predicate Valid() {
      n >= 2 && m >= 2
    }

    function NMajority(): nat
      requires n >= 1
    {
      Config(n, {}, ThreeStep).NMajority()
    }

    predicate IsLeaf(v: nat) {
      forall j | 0 <= j < n :: !IsChild(n, m, v, j)
    }

    function NumberOfChildren(v: nat): nat {
      |Counted(n, m, v, n)|
    }
  }

  /** certs: the certificate each replica collects for the block, if it has started one.
    * sent: what each replica has sent to its parent, in order.
    * voted: the replicas that have voted.  taken: the messages (sender, position) whose handler has
    * run as far as the asynchronous verification.  arrived: those that have been dealt with.
    * finished: how often the root has passed a complete certificate on. */
  datatype State = State(
    certs: seq<Option<Gathered>>,
    sent: seq<seq<Gathered>>,
    voted: set<nat>,
    taken: set<(nat, nat)>,
    arrived: set<(nat, nat)>,
    finished: nat)

  function Initial(net: Net): State
    requires net.Valid()
  {
    State(seq(net.n, v requires 0 <= v < net.n =>
            if v == 0 then Some(if net.rootSigns then Single(0) else Gathered({}, multiset{})) else None),
          seq(net.n, v requires 0 <= v < net.n => []),
          {}, {}, {}, 0)
  }

  /** A replica votes; a message reaches its receiver; a message taken has been verified. */
  datatype Event = Cast(v: nat) | Arrive(j: nat, k: nat) | Checked(j: nat, k: nat)

  predicate Shaped(net: Net, s: State) {
    |s.certs| == |s.sent| == net.n
  }

  predicate Enabled(net: Net, s: State, e: Event) {
    && net.Valid() && Shaped(net, s)
    && match e
       case Cast(v) => 1 <= v < net.n && v !in s.voted
       case Arrive(j, k) => 1 <= j < net.n && k < |s.sent[j]| && (j, k) !in s.taken
       case Checked(j, k) => 1 <= j < net.n && k < |s.sent[j]| && (j, k) in s.taken && (j, k) !in s.arrived
  }

  /** do_vote: a leaf sends its vote, an internal replica puts it into its certificate unless one is there. */
  function CastVote(net: Net, s: State, v: nat): State
    requires Shaped(net, s) && v < net.n
  {
    var s1 := s.(voted := s.voted + {v});
    if net.IsLeaf(v) then s1.(sent := s.sent[v := s.sent[v] + [Single(v)]])
    else if s.certs[v].None? then s1.(certs := s.certs[v := Some(Single(v))])
    else s1
  }

  /** The certificate the handlers work on: one is opened with the own signature if need be. */
  function Opened(s: State, p: nat): Gathered
    requires p < |s.certs|
  {
    if s.certs[p].Some? then s.certs[p].value else Single(p)
  }

  /** The handlers of votes and relays up to the verification: a full certificate drops the message. */
  function Take(net: Net, s: State, p: nat, a: (nat, nat)): State
    requires net.Valid() && Shaped(net, s) && p < net.n
  {
    var was := Opened(s, p);
    s.(certs := s.certs[p := Some(was)], taken := s.taken + {a},
       arrived := if |was.signers| >= net.NMajority() then s.arrived + {a} else s.arrived)
  }

  /** The handlers after the verification, at the parent p.  Only relays test again for a quorum first,
    * and the root does not verify an aggregate completed by a single vote. */
  function Receive(net: Net, s: State, p: nat, relayed: bool, g: Gathered): State
    requires net.Valid() && Shaped(net, s) && p < net.n
  {
    var was := Opened(s, p);
    if relayed && |was.signers| >= net.NMajority() then s
    else if p != 0 then
      if |was.signers| >= net.NumberOfChildren(p) + 1 then s
      else
        var all := Merge(was, g);
        var s2 := s.(certs := s.certs[p := Some(all)]);
        if |all.signers| < net.NumberOfChildren(p) + 1 then s2
        else if !all.Verifies() then s2
        else s2.(sent := s.sent[p := s.sent[p] + [all]])
    else
      var all := Merge(was, g);
      var s2 := s.(certs := s.certs[0 := Some(all)]);
      if |all.signers| < net.NMajority() || (relayed && !all.Verifies()) then s2
      else s2.(finished := s.finished + 1)
  }

  function Step(net: Net, s: State, e: Event): State
    requires Enabled(net, s, e)
  {
    match e
    case Cast(v) => CastVote(net, s, v)
    case Arrive(j, k) => Take(net, s, Parent(net.n, net.m, j), (j, k))
    case Checked(j, k) =>
      Receive(net, s, Parent(net.n, net.m, j), !net.IsLeaf(j), s.sent[j][k]).(arrived := s.arrived + {(j, k)})
  }

  // ---------- subtrees ----------

  function Sub(net: Net, v: nat): set<nat>
    requires net.m >= 2
  {
    Subtree(net.n, net.m, v)
  }

  /** The aggregate a replica owes its parent: its whole subtree, each member once. */
  function Full(net: Net, v: nat): Gathered
    requires net.m >= 2
  {
    Gathered(Sub(net, v), multiset(Sub(net, v)))
  }

  /** Without any one of its children, p is short of numberOfChildren + 1 signers. */
  predicate PatientAt(net: Net, p: nat)
    requires net.m >= 2
  {
    forall j | 0 <= j < net.n && IsChild(net.n, net.m, p, j) :: |Sub(net, p)| - |Sub(net, j)| <= net.NumberOfChildren(p)
  }

  /** No replica below the root may relay before its last child is heard of. */
  predicate Patient(net: Net)
    requires net.m >= 2
  {
    forall p {:trigger PatientAt(net, p)} | 1 <= p < net.n :: PatientAt(net, p)
  }

  /** In trees at most three edges deep none may. */
  lemma PatientWhenShallow(net: Net)
    requires net.Valid() && Depth(net.n, net.m, net.n - 1) <= 3
    ensures Patient(net)
  {
    hide Depth;
    forall p | 1 <= p < net.n ensures PatientAt(net, p) {
      CountWhenShallow(net.n, net.m, p);
      forall j | 0 <= j < net.n && IsChild(net.n, net.m, p, j)
        ensures |Sub(net, p)| - |Sub(net, j)| <= net.NumberOfChildren(p) {
        assert InSubtree(net.n, net.m, j, j);
        assert j in Sub(net, j);
      }
    }
  }

  /** Two ancestors of one replica lie on one path. */
  lemma {:induction false} AncestorsNested(n: nat, m: nat, u: nat, v: nat, x: nat)
    requires m >= 2 && x < n && InSubtree(n, m, u, x) && InSubtree(n, m, v, x) && u <= v
    ensures v < n && InSubtree(n, m, u, v)
  {
    SubtreeDepth(n, m, u, x);
    SubtreeDepth(n, m, v, x);
    if x != v {
      if x == u {
        assert false;
      }
      AncestorsNested(n, m, u, v, Parent(n, m, x));
    }
  }

  /** Different children have disjoint subtrees, and none contains the parent. */
  lemma SiblingsDisjoint(n: nat, m: nat, v: nat, i: nat, j: nat, x: nat)
    requires m >= 2 && IsChild(n, m, v, i) && IsChild(n, m, v, j) && x < n
    requires InSubtree(n, m, i, x) && InSubtree(n, m, j, x)
    ensures i == j && x != v
  {
    SubtreeDepth(n, m, i, x);
    if i <= j {
      AncestorsNested(n, m, i, j, x);
      SubtreeDepth(n, m, i, j);
    } else {
      AncestorsNested(n, m, j, i, x);
      SubtreeDepth(n, m, j, i);
    }
  }

  /** The child of v towards x. */
  lemma {:induction false} ChildToward(n: nat, m: nat, v: nat, x: nat) returns (j: nat)
    requires m >= 2 && x < n && InSubtree(n, m, v, x) && x != v
    ensures IsChild(n, m, v, j) && InSubtree(n, m, j, x)
  {
    var p := Parent(n, m, x);
    if p == v {
      j := x;
    } else {
      j := ChildToward(n, m, v, p);
    }
  }

  // ---------- what has been gathered ----------

  predicate ArrivedFrom(s: State, j: nat) {
    (j, 0) in s.arrived
  }

  /** Some child of v whose message has arrived has x in its subtree. */
  predicate GainedFrom(net: Net, s: State, v: nat, x: nat)
    requires net.m >= 2 && x < net.n
  {
    exists j: nat | j < net.n :: IsChild(net.n, net.m, v, j) && ArrivedFrom(s, j) && InSubtree(net.n, net.m, j, x)
  }

  /** Members of the subtrees of those children of v whose message has arrived. */
  function Gained(net: Net, s: State, v: nat): set<nat>
    requires net.m >= 2
  {
    set x: nat | x < net.n && GainedFrom(net, s, v, x)
  }

  lemma GainedStep(net: Net, s: State, s': State, v: nat, j: nat)
    requires net.m >= 2 && 1 <= j < net.n && s'.arrived == s.arrived + {(j, 0)}
    ensures Gained(net, s', v) == Gained(net, s, v) + if Parent(net.n, net.m, j) == v then Sub(net, j) else {}
  {
    assert forall i: nat :: ArrivedFrom(s', i) <==> ArrivedFrom(s, i) || i == j;
    forall x: nat | x < net.n
      ensures GainedFrom(net, s', v, x) <==>
        GainedFrom(net, s, v, x) || (Parent(net.n, net.m, j) == v && x in Sub(net, j))
    {
      if GainedFrom(net, s', v, x) {
        var i: nat :| i < net.n && IsChild(net.n, net.m, v, i) && ArrivedFrom(s', i) && InSubtree(net.n, net.m, i, x);
      }
      if GainedFrom(net, s, v, x) {
        var i: nat :| i < net.n && IsChild(net.n, net.m, v, i) && ArrivedFrom(s, i) && InSubtree(net.n, net.m, i, x);
        assert ArrivedFrom(s', i);
      }
      if Parent(net.n, net.m, j) == v && x in Sub(net, j) {
        assert IsChild(net.n, net.m, v, j) && ArrivedFrom(s', j);
      }
    }
  }

  /** What a message not yet arrived brings is new. */
  lemma NewsIsNew(net: Net, s: State, v: nat, j: nat)
    requires net.m >= 2 && IsChild(net.n, net.m, v, j) && !ArrivedFrom(s, j)
    ensures Sub(net, j) !! Gained(net, s, v) + {v}
  {
    forall x | x in Sub(net, j) ensures x !in Gained(net, s, v) && x != v {
      SiblingsDisjoint(net.n, net.m, v, j, j, x);
      if x in Gained(net, s, v) {
        var i: nat :| i < net.n && IsChild(net.n, net.m, v, i) && ArrivedFrom(s, i) && InSubtree(net.n, net.m, i, x);
        SiblingsDisjoint(net.n, net.m, v, i, j, x);
      }
    }
  }

  /** Nothing gained lies outside the subtree, and everything has been gained exactly when every child's message is
    * in. */
  lemma GainedBounds(net: Net, s: State, v: nat)
    requires net.m >= 2 && v < net.n
    ensures Gained(net, s, v) <= Sub(net, v) - {v}
    ensures Gained(net, s, v) + {v} == Sub(net, v) <==>
      forall j | 0 <= j < net.n && IsChild(net.n, net.m, v, j) :: ArrivedFrom(s, j)
  {
    var n, m := net.n, net.m;
    forall x | x in Gained(net, s, v) ensures x in Sub(net, v) && x != v {
      var i: nat :| i < n && IsChild(n, m, v, i) && ArrivedFrom(s, i) && InSubtree(n, m, i, x);
      assert InSubtree(n, m, v, v);
      assert InSubtree(n, m, v, i);
      SubtreeTransitive(n, m, v, i, x);
      SiblingsDisjoint(n, m, v, i, i, x);
    }
    assert InSubtree(n, m, v, v);
    if forall j | 0 <= j < n && IsChild(n, m, v, j) :: ArrivedFrom(s, j) {
      forall x | x in Sub(net, v) && x != v ensures x in Gained(net, s, v) {
        var j := ChildToward(n, m, v, x);
      }
    } else {
      var j :| 0 <= j < n && IsChild(n, m, v, j) && !ArrivedFrom(s, j);
      NewsIsNew(net, s, v, j);
      assert InSubtree(n, m, j, j);
      assert InSubtree(n, m, v, j);
      assert j in Sub(net, v) && j in Sub(net, j);
    }
  }

  // ---------- the invariant ----------

  function Base(net: Net): set<nat> {
    if net.rootSigns then {0} else {}
  }

  /** An aggregate of the given signers, each once. */
  function Each(q: set<nat>): Gathered {
    Gathered(q, multiset(q))
  }

  predicate NodeOk(net: Net, s: State, v: nat)
    requires Shaped(net, s) && 1 <= v < net.n && net.m >= 2
  {
    && (s.sent[v] == [] || s.sent[v] == [Full(net, v)])
    && if net.IsLeaf(v) then
         v in s.voted <==> s.sent[v] != []
       else
         && (v in s.voted ==> s.certs[v].Some?)
         && (s.certs[v].Some? ==> s.certs[v].value == Each(Gained(net, s, v) + {v}))
         && (s.certs[v].None? ==> Gained(net, s, v) == {})
         && (s.sent[v] != [] <==> s.certs[v].Some? && s.certs[v].value.signers == Sub(net, v))
  }

  predicate RootOk(net: Net, s: State)
    requires Shaped(net, s) && net.n >= 2 && net.m >= 2
  {
    s.certs[0].Some? && RootSound(net.NMajority(), s.certs[0].value, s.finished, Base(net) + Gained(net, s, 0))
  }

  /** The root's certificate, given a quorum, how often it was passed on, and the signers it can have heard of. */
  predicate RootSound(quorum: nat, cert: Gathered, finished: nat, heard: set<nat>) {
    && cert.Verifies()
    && cert.signers <= heard
    && (finished == 0 ==> cert.signers == heard)
    && (finished == 0 <==> |cert.signers| < quorum)
  }

  /** Only first messages are ever taken, and their receiver has a certificate. */
  predicate TakenOk(net: Net, s: State, a: (nat, nat))
    requires Shaped(net, s) && net.m >= 2
  {
    && 1 <= a.0 < net.n && a.1 == 0 && s.sent[a.0] != []
    && s.certs[Parent(net.n, net.m, a.0)].Some?
  }

  predicate NodesOk(net: Net, s: State)
    requires Shaped(net, s) && net.m >= 2
  {
    forall v {:trigger NodeOk(net, s, v)} | 1 <= v < net.n :: NodeOk(net, s, v)
  }

  predicate AllTakenOk(net: Net, s: State)
    requires Shaped(net, s) && net.m >= 2
  {
    (forall a | a in s.taken :: TakenOk(net, s, a)) && s.arrived <= s.taken
  }

  predicate Inv(net: Net, s: State) {
    && net.Valid() && Patient(net) && Shaped(net, s)
    && NodesOk(net, s)
    && RootOk(net, s)
    && AllTakenOk(net, s)
  }

  lemma SingleIsEach(v: nat)
    ensures Single(v) == Each({v})
    ensures Gathered({}, multiset{}) == Each({})
  {
    assert forall x: nat :: multiset({v})[x] == multiset{v}[x];
  }

  /** Summing two aggregates without a common signer keeps every signer's signature once. */
  lemma MergeDisjoint(p: set<nat>, q: set<nat>)
    requires p !! q
    ensures Merge(Each(p), Each(q)) == Each(p + q)
  {
    assert forall x: nat :: (multiset(p) + multiset(q))[x] == multiset(p + q)[x];
  }

  lemma InitialInv(net: Net)
    requires net.Valid() && Patient(net)
    ensures Inv(net, Initial(net))
  {
    var s := Initial(net);
    NoneGained(net, s, 0);
    SingleIsEach(0);
    assert net.NMajority() >= 2;
    forall v | 1 <= v < net.n ensures NodeOk(net, s, v) {
      NoneGained(net, s, v);
      assert v in Sub(net, v) by {
        assert InSubtree(net.n, net.m, v, v);
      }
    }
  }

  lemma NoneGained(net: Net, s: State, v: nat)
    requires net.m >= 2 && s.arrived == {}
    ensures Gained(net, s, v) == {}
  {
    assert forall i: nat :: !ArrivedFrom(s, i);
  }

  lemma SameGained(net: Net, s: State, s': State, v: nat)
    requires net.m >= 2 && s'.arrived == s.arrived
    ensures Gained(net, s', v) == Gained(net, s, v)
  {
    assert forall i: nat :: ArrivedFrom(s', i) <==> ArrivedFrom(s, i);
  }

  lemma LeafSub(net: Net, v: nat)
    requires net.m >= 2 && v < net.n && net.IsLeaf(v)
    ensures Sub(net, v) == {v}
  {
    forall x | x in Sub(net, v) ensures x == v {
      if x != v {
        var j := ChildToward(net.n, net.m, v, x);
      }
    }
    assert InSubtree(net.n, net.m, v, v);
  }

  /** An internal replica's certificate before its own vote is never already complete. */
  lemma InternalSub(net: Net, v: nat)
    requires net.m >= 2 && v < net.n && !net.IsLeaf(v)
    ensures Sub(net, v) != {v}
  {
    var j :| 0 <= j < net.n && IsChild(net.n, net.m, v, j);
    assert InSubtree(net.n, net.m, v, v);
    assert InSubtree(net.n, net.m, v, j);
    assert j in Sub(net, v);
  }

  /** A replica whose own fields and children's messages are as before. */
  lemma NodeFrame(net: Net, s: State, s': State, u: nat)
    requires Shaped(net, s) && Shaped(net, s') && 1 <= u < net.n && net.m >= 2 && NodeOk(net, s, u)
    requires s'.certs[u] == s.certs[u] && s'.sent[u] == s.sent[u] && (u in s'.voted <==> u in s.voted)
    requires Gained(net, s', u) == Gained(net, s, u)
    ensures NodeOk(net, s', u)
  {
    hide Gained, Sub, Net.IsLeaf;
  }

  lemma VoteNode(net: Net, s: State, v: nat)
    requires Shaped(net, s) && net.m >= 2 && 1 <= v < net.n && NodeOk(net, s, v) && v !in s.voted
    ensures NodeOk(net, CastVote(net, s, v), v)
  {
    SingleIsEach(v);
    SameGained(net, s, CastVote(net, s, v), v);
    if net.IsLeaf(v) {
      LeafSub(net, v);
      hide Gained, Sub, Net.IsLeaf;
    } else {
      InternalSub(net, v);
      assert {} + {v} == {v};
      hide Gained, Sub, Net.IsLeaf;
    }
  }

  /** Every replica is in order when one is and the others are as before. */
  lemma OthersOk(net: Net, s: State, s': State, p: nat)
    requires Shaped(net, s) && Shaped(net, s') && net.m >= 2 && NodesOk(net, s)
    requires 1 <= p < net.n ==> NodeOk(net, s', p)
    requires forall v | 1 <= v < net.n && v != p ::
      s'.certs[v] == s.certs[v] && s'.sent[v] == s.sent[v] && (v in s'.voted <==> v in s.voted)
    requires forall v: nat | 1 <= v < net.n && v != p :: Gained(net, s', v) == Gained(net, s, v)
    ensures NodesOk(net, s')
  {
    hide NodeOk, Gained;
    forall v | 1 <= v < net.n ensures NodeOk(net, s', v) {
      assert NodeOk(net, s, v);
      if v != p {
        NodeFrame(net, s, s', v);
      }
    }
  }

  lemma TakenFrame(net: Net, s: State, s': State, a: (nat, nat))
    requires Shaped(net, s) && Shaped(net, s') && net.m >= 2 && AllTakenOk(net, s)
    requires s'.taken <= s.taken + {a} && s'.arrived <= s'.taken && (a in s'.taken ==> TakenOk(net, s', a))
    requires forall v | 0 <= v < net.n ::
      (s.certs[v].Some? ==> s'.certs[v].Some?) && (s.sent[v] != [] ==> s'.sent[v] != [])
    ensures AllTakenOk(net, s')
  {
    hide Parent;
  }

  lemma VoteInv(net: Net, s: State, v: nat)
    requires Inv(net, s) && Enabled(net, s, Cast(v))
    ensures Inv(net, CastVote(net, s, v))
  {
    var s' := CastVote(net, s, v);
    assert NodeOk(net, s, v);
    VoteNode(net, s, v);
    forall u: nat | u < net.n ensures Gained(net, s', u) == Gained(net, s, u) {
      SameGained(net, s, s', u);
    }
    hide NodeOk, Gained, NodesOk, AllTakenOk, Net.NMajority, Depth;
    OthersOk(net, s, s', v);
    KeepTaken(net, s, s');
  }

  lemma KeepTaken(net: Net, s: State, s': State)
    requires Shaped(net, s) && Shaped(net, s') && net.m >= 2 && AllTakenOk(net, s)
    requires s'.taken == s.taken && s'.arrived <= s.taken
    requires forall v | 0 <= v < net.n ::
      (s.certs[v].Some? ==> s'.certs[v].Some?) && (s.sent[v] != [] ==> s'.sent[v] != [])
    ensures AllTakenOk(net, s')
  {
    hide Parent;
  }

  /** The message of a child is its whole subtree. */
  lemma MessageIsFull(net: Net, s: State, j: nat, k: nat)
    requires Inv(net, s) && 1 <= j < net.n && k < |s.sent[j]|
    ensures k == 0 && s.sent[j] == [Full(net, j)]
  {
    assert NodeOk(net, s, j);
  }

  /** What a replica that misses a child can have gathered at most. */
  lemma MissesChild(net: Net, s: State, p: nat, j: nat)
    requires net.m >= 2 && p < net.n && IsChild(net.n, net.m, p, j) && !ArrivedFrom(s, j)
    ensures Gained(net, s, p) + {p} <= Sub(net, p) - Sub(net, j)
    ensures |Gained(net, s, p) + {p}| <= |Sub(net, p)| - |Sub(net, j)|
    ensures j in Sub(net, p) && j in Sub(net, j) && Sub(net, j) <= Sub(net, p)
  {
    var n, m := net.n, net.m;
    GainedBounds(net, s, p);
    NewsIsNew(net, s, p, j);
    assert InSubtree(n, m, j, j) && InSubtree(n, m, p, p);
    assert InSubtree(n, m, p, j);
    forall x | x in Sub(net, j) ensures x in Sub(net, p) {
      SubtreeTransitive(n, m, p, j, x);
    }
    SubsetSize(Gained(net, s, p) + {p}, Sub(net, p) - Sub(net, j));
  }

  lemma CountFits(net: Net, p: nat)
    requires net.m >= 2 && 1 <= p < net.n
    ensures net.NumberOfChildren(p) + 1 <= |Sub(net, p)|
  {
    CountedInSubtree(net.n, net.m, p);
    assert InSubtree(net.n, net.m, p, p);
    SubsetSize(Counted(net.n, net.m, p, net.n) + {p}, Sub(net, p));
  }

  /** A proper part of a subtree below the root is no quorum. */
  lemma PartNoQuorum(net: Net, p: nat, q: set<nat>)
    requires net.Valid() && 1 <= p < net.n && q <= Sub(net, p)
    ensures |q| < net.NMajority()
  {
    NoSubtreeQuorum(Config(net.n, {}, ThreeStep), net.m, p);
    SubsetSize(q, Sub(net, p));
  }

  /** A replica with a child that has not been heard of is short of numberOfChildren + 1 and of a quorum;
    * with the child's message it has that number exactly when its subtree is complete. */
  lemma Threshold(net: Net, s: State, p: nat, j: nat)
    requires net.Valid() && 1 <= p < net.n && PatientAt(net, p) && IsChild(net.n, net.m, p, j) && !ArrivedFrom(s, j)
    ensures |Gained(net, s, p) + {p}| < net.NMajority()
    ensures |Gained(net, s, p) + {p}| < net.NumberOfChildren(p) + 1
    ensures Gained(net, s, p) + Sub(net, j) + {p} <= Sub(net, p)
    ensures |Gained(net, s, p) + Sub(net, j) + {p}| < net.NumberOfChildren(p) + 1
      <==> Gained(net, s, p) + Sub(net, j) + {p} != Sub(net, p)
  {
    hide Sub, Gained, Net.NumberOfChildren, Net.NMajority;
    MissesChild(net, s, p, j);
    CountFits(net, p);
    PartNoQuorum(net, p, Gained(net, s, p) + {p});
    var s' := s.(arrived := s.arrived + {(j, 0)});
    GainedStep(net, s, s', p, j);
    GainedBounds(net, s', p);
    var all := Gained(net, s, p) + Sub(net, j) + {p};
    assert all == Gained(net, s', p) + {p};
    if all != Sub(net, p) {
      var i :| 0 <= i < net.n && IsChild(net.n, net.m, p, i) && !ArrivedFrom(s', i);
      MissesChild(net, s', p, i);
    }
  }

  /** The certificate an internal replica works on when a message arrives. */
  lemma OpenedIs(net: Net, s: State, p: nat)
    requires Shaped(net, s) && net.m >= 2 && 1 <= p < net.n && NodeOk(net, s, p) && !net.IsLeaf(p)
    ensures Opened(s, p) == Each(Gained(net, s, p) + {p})
  {
    hide Gained, Sub, Net.IsLeaf;
    SingleIsEach(p);
    assert {} + {p} == {p};
  }

  lemma NotLeaf(net: Net, p: nat, j: nat)
    requires IsChild(net.n, net.m, p, j)
    ensures !net.IsLeaf(p)
  {
  }

  /** A replica still missing a child has not sent. */
  lemma Unfinished(net: Net, s: State, p: nat, j: nat)
    requires Shaped(net, s) && net.m >= 2 && 1 <= p < net.n && NodeOk(net, s, p)
    requires IsChild(net.n, net.m, p, j) && !ArrivedFrom(s, j)
    ensures s.sent[p] == []
  {
    NotLeaf(net, p, j);
    GainedBounds(net, s, p);
  }

  /** A message taken below the root is not dropped; its receiver opens a certificate at most. */
  lemma TakeBelowRoot(net: Net, s: State, j: nat)
    requires Inv(net, s) && Enabled(net, s, Arrive(j, 0)) && Parent(net.n, net.m, j) != 0
    ensures var p, s' := Parent(net.n, net.m, j), Take(net, s, Parent(net.n, net.m, j), (j, 0));
      && s'.arrived == s.arrived
      && s'.certs == s.certs[p := Some(Each(Gained(net, s, p) + {p}))]
      && NodeOk(net, s', p)
  {
    var p, s' := Parent(net.n, net.m, j), Take(net, s, Parent(net.n, net.m, j), (j, 0));
    NotLeaf(net, p, j);
    assert NodeOk(net, s, p);
    Threshold(net, s, p, j);
    OpenedIs(net, s, p);
    Unfinished(net, s, p, j);
    SameGained(net, s, s', p);
    GainedBounds(net, s, p);
    hide Inv, Gained, Sub, Net.IsLeaf, Net.NMajority, Net.NumberOfChildren, Net.Valid, Parent, Enabled;
  }

  /** What a step that deals with the message of j adds to what its receiver has gained. */
  lemma GainedByAll(net: Net, s: State, s': State, j: nat)
    requires net.m >= 2 && 1 <= j < net.n
    requires s'.arrived == s.arrived + {(j, 0)} || s'.arrived == s.arrived
    ensures forall v: nat | v < net.n && v != Parent(net.n, net.m, j) :: Gained(net, s', v) == Gained(net, s, v)
    ensures var p := Parent(net.n, net.m, j);
      Gained(net, s', p) == Gained(net, s, p) + if s'.arrived == s.arrived then {} else Sub(net, j)
  {
    forall v: nat | v < net.n
      ensures Gained(net, s', v) == Gained(net, s, v) + if s'.arrived != s.arrived &&
        Parent(net.n, net.m, j) == v then Sub(net, j) else {}
    {
      if s'.arrived == s.arrived {
        SameGained(net, s, s', v);
      } else {
        GainedStep(net, s, s', v, j);
      }
    }
  }

  /** A message taken at the root changes no certificate. */
  lemma TakeAtRoot(net: Net, s: State, j: nat)
    requires Inv(net, s) && Enabled(net, s, Arrive(j, 0)) && Parent(net.n, net.m, j) == 0
    ensures var s' := Take(net, s, 0, (j, 0));
      && s'.certs == s.certs && Shaped(net, s') && RootOk(net, s')
  {
    var s' := Take(net, s, 0, (j, 0));
    GainedByAll(net, s, s', j);
    hide Gained, Sub, NodesOk, AllTakenOk, Net.NMajority, Depth, Parent;
  }

  lemma TakeInv(net: Net, s: State, j: nat)
    requires Inv(net, s) && Enabled(net, s, Arrive(j, 0))
    ensures Inv(net, Take(net, s, Parent(net.n, net.m, j), (j, 0)))
  {
    hide NodeOk, Gained, Sub, NodesOk, RootSound, Net.NMajority, Depth, Net.IsLeaf, Patient, Parent;
    var p, s' := Parent(net.n, net.m, j), Take(net, s, Parent(net.n, net.m, j), (j, 0));
    if p != 0 {
      TakeBelowRoot(net, s, j);
    } else {
      TakeAtRoot(net, s, j);
    }
    GainedByAll(net, s, s', j);
    OthersOk(net, s, s', p);
    TakenFrame(net, s, s', (j, 0));
  }

  /** What the verified message of child i does at v, which has signatures of has. */
  lemma CheckedAs(net: Net, s: State, v: nat, i: nat, has: set<nat>)
    requires net.Valid() && Shaped(net, s) && 1 <= v < net.n && IsChild(net.n, net.m, v, i)
    requires s.sent[i] == [Full(net, i)] && Opened(s, v) == Each(has)
    requires |has| <= net.NumberOfChildren(v) && |has| < net.NMajority() && has !! Sub(net, i)
    requires Enabled(net, s, Checked(i, 0))
    ensures var all := has + Sub(net, i);
      Step(net, s, Checked(i, 0)) ==
        s.(certs := s.certs[v := Some(Each(all))],
           sent := if |all| > net.NumberOfChildren(v) then s.sent[v := s.sent[v] + [Each(all)]] else s.sent,
           arrived := s.arrived + {(i, 0)})
  {
    hide Sub, Net.NumberOfChildren, Net.NMajority, Net.IsLeaf, Parent;
    MergeDisjoint(has, Sub(net, i));
  }

  /** What the verified message of j does at an internal replica p. */
  lemma ReceiveBelowRoot(net: Net, s: State, j: nat)
    requires Inv(net, s) && Enabled(net, s, Checked(j, 0)) && Parent(net.n, net.m, j) != 0
    ensures var p, s' := Parent(net.n, net.m, j), Step(net, s, Checked(j, 0));
      && var all := Gained(net, s, p) + Sub(net, j) + {p};
      && s'.certs == s.certs[p := Some(Each(all))]
      && s'.sent == (if all == Sub(net, p) then s.sent[p := s.sent[p] + [Full(net, p)]] else s.sent)
      && s'.finished == s.finished && s'.voted == s.voted && s'.taken == s.taken
  {
    var p := Parent(net.n, net.m, j);
    MessageIsFull(net, s, j, 0);
    NotLeaf(net, p, j);
    InvNode(net, s, p);
    NewsIsNew(net, s, p, j);
    OpenedIs(net, s, p);
    var has := Gained(net, s, p) + {p};
    assert has + Sub(net, j) == Gained(net, s, p) + Sub(net, j) + {p};
    hide Inv, Gained, Sub, Net.IsLeaf, Net.NMajority, Net.NumberOfChildren, NodeOk, Step, PatientAt;
    Threshold(net, s, p, j);
    CheckedAs(net, s, p, j, has);
  }

  lemma InvNode(net: Net, s: State, p: nat)
    requires Inv(net, s) && 1 <= p < net.n
    ensures net.Valid() && Shaped(net, s) && NodeOk(net, s, p) && PatientAt(net, p)
  {
    hide NodeOk, PatientAt;
  }

  /** The receiving replica afterwards. */
  lemma ReceiverOk(net: Net, s: State, j: nat)
    requires Inv(net, s) && Enabled(net, s, Checked(j, 0)) && Parent(net.n, net.m, j) != 0
    ensures Shaped(net, Step(net, s, Checked(j, 0)))
    ensures NodeOk(net, Step(net, s, Checked(j, 0)), Parent(net.n, net.m, j))
  {
    var p, s' := Parent(net.n, net.m, j), Step(net, s, Checked(j, 0));
    ReceiveBelowRoot(net, s, j);
    NotLeaf(net, p, j);
    assert NodeOk(net, s, p);
    GainedStep(net, s, s', p, j);
    Threshold(net, s, p, j);
    Unfinished(net, s, p, j);
    hide Step, Inv, Gained, Sub, Net.IsLeaf, Net.NMajority, Net.NumberOfChildren, Net.Valid, Parent, Enabled;
  }

  lemma ReceiveBelowRootInv(net: Net, s: State, j: nat)
    requires Inv(net, s) && Enabled(net, s, Checked(j, 0)) && Parent(net.n, net.m, j) != 0
    ensures Inv(net, Step(net, s, Checked(j, 0)))
  {
    var p, s' := Parent(net.n, net.m, j), Step(net, s, Checked(j, 0));
    ReceiveBelowRoot(net, s, j);
    ReceiverOk(net, s, j);
    assert s'.arrived == s.arrived + {(j, 0)};
    GainedByAll(net, s, s', j);
    hide Step, NodeOk, Gained, Sub, NodesOk, AllTakenOk, Parent, Net.NMajority, Depth;
    OthersOk(net, s, s', p);
    KeepTaken(net, s, s');
  }

  /** A sound root certificate stays sound, whether it drops or merges the news q. */
  lemma SoundGrows(quorum: nat, cert: Gathered, finished: nat, heard: set<nat>, q: set<nat>)
    requires RootSound(quorum, cert, finished, heard) && heard !! q
    ensures |cert.signers| >= quorum ==> RootSound(quorum, cert, finished, heard + q)
    ensures Merge(cert, Each(q)).Verifies()
    ensures RootSound(quorum, Merge(cert, Each(q)), finished + if |cert.signers + q| >= quorum then 1 else 0, heard + q)
  {
    MergeDisjoint(cert.signers, q);
    SubsetSize(cert.signers, cert.signers + q);
  }

  /** The root after verified news: its certificate is still sound. */
  lemma RootStays(net: Net, s: State, relayed: bool, heard: set<nat>, q: set<nat>)
    requires net.Valid() && Shaped(net, s) && s.certs[0].Some? && heard !! q
    requires RootSound(net.NMajority(), s.certs[0].value, s.finished, heard)
    ensures var s' := Receive(net, s, 0, relayed, Each(q));
      && Shaped(net, s') && s'.certs[0].Some?
      && RootSound(net.NMajority(), s'.certs[0].value, s'.finished, heard + q)
      && s'.sent == s.sent && s'.voted == s.voted && s'.taken == s.taken && s'.certs == s.certs[0 := s'.certs[0]]
  {
    hide Net.NMajority, Depth, RootSound;
    SoundGrows(net.NMajority(), s.certs[0].value, s.finished, heard, q);
    hide Gathered.Verifies;
  }

  /** The root after a message of its child j: still sound, and nothing else has changed. */
  lemma RootAfter(net: Net, s: State, j: nat)
    requires Inv(net, s) && Enabled(net, s, Checked(j, 0)) && Parent(net.n, net.m, j) == 0
    ensures var s' := Step(net, s, Checked(j, 0));
      && Shaped(net, s') && RootOk(net, s')
      && s'.sent == s.sent && s'.voted == s.voted && s'.taken == s.taken && s'.certs == s.certs[0 := s'.certs[0]]
  {
    hide Gained, Sub, Net.IsLeaf, Net.NMajority, Net.NumberOfChildren, Depth, NodesOk, RootSound, AllTakenOk,
      Parent, Receive;
    var s' := Step(net, s, Checked(j, 0));
    MessageIsFull(net, s, j, 0);
    GainedStep(net, s, s', 0, j);
    RootNews(net, s, j);
    var heard := Base(net) + Gained(net, s, 0);
    assert Base(net) + Gained(net, s', 0) == heard + Sub(net, j);
    RootStays(net, s, !net.IsLeaf(j), heard, Sub(net, j));
  }

  lemma ReceiveAtRootInv(net: Net, s: State, j: nat)
    requires Inv(net, s) && Enabled(net, s, Checked(j, 0)) && Parent(net.n, net.m, j) == 0
    ensures Inv(net, Step(net, s, Checked(j, 0)))
  {
    var s' := Step(net, s, Checked(j, 0));
    RootAfter(net, s, j);
    assert s'.arrived == s.arrived + {(j, 0)};
    GainedByAll(net, s, s', j);
    hide Step, NodeOk, Gained, Sub, NodesOk, AllTakenOk, Parent, Net.NMajority, Depth;
    OthersOk(net, s, s', 0);
    KeepTaken(net, s, s');
  }

  lemma RootNews(net: Net, s: State, j: nat)
    requires net.m >= 2 && IsChild(net.n, net.m, 0, j) && !ArrivedFrom(s, j)
    ensures Base(net) + Gained(net, s, 0) !! Sub(net, j)
  {
    NewsIsNew(net, s, 0, j);
  }

  lemma StepInv(net: Net, s: State, e: Event)
    requires Inv(net, s) && Enabled(net, s, e)
    ensures Inv(net, Step(net, s, e))
  {
    match e {
      case Cast(v) =>
        VoteInv(net, s, v);
      case Arrive(j, k) =>
        MessageIsFull(net, s, j, k);
        TakeInv(net, s, j);
      case Checked(j, k) =>
        MessageIsFull(net, s, j, k);
        if Parent(net.n, net.m, j) == 0 {
          ReceiveAtRootInv(net, s, j);
        } else {
          ReceiveBelowRootInv(net, s, j);
        }
    }
  }

  // ---------- runs ----------

  ghost predicate StepAt(net: Net, ss: seq<State>, es: seq<Event>, i: nat)
    requires |ss| == |es| + 1 && i < |es|
  {
    Enabled(net, ss[i], es[i]) && ss[i + 1] == Step(net, ss[i], es[i])
  }

  ghost predicate IsRun(net: Net, ss: seq<State>, es: seq<Event>) {
    && net.Valid()
    && |ss| == |es| + 1
    && ss[0] == Initial(net)
    && forall i {:trigger StepAt(net, ss, es, i)} | 0 <= i < |es| :: StepAt(net, ss, es, i)
  }

  lemma {:induction false} RunInv(net: Net, ss: seq<State>, es: seq<Event>, i: nat)
    requires IsRun(net, ss, es) && Patient(net) && i < |ss|
    ensures Inv(net, ss[i])
  {
    hide Inv, Step, Enabled;
    if i == 0 {
      InitialInv(net);
    } else {
      RunInv(net, ss, es, i - 1);
      assert StepAt(net, ss, es, i - 1);
      StepInv(net, ss[i - 1], es[i - 1]);
    }
  }

  /** Nothing is left to happen: everyone has voted and every message has arrived. */
  predicate Quiescent(net: Net, s: State) {
    && Shaped(net, s)
    && (forall v | 1 <= v < net.n :: v in s.voted)
    && (forall j, k | 0 <= j < net.n && 0 <= k < |s.sent[j]| :: (j, k) in s.arrived)
  }

  /** In a patient tree, in any order of events, no replica ever sends its parent anything but its whole subtree, once;
    * the root's certificate always verifies, and has been passed on as soon as it holds a quorum. */
  lemma NeverPartial(net: Net, ss: seq<State>, es: seq<Event>, i: nat)
    requires IsRun(net, ss, es) && Patient(net) && i < |ss|
    ensures Shaped(net, ss[i]) && ss[i].certs[0].Some?
    ensures forall v | 1 <= v < net.n :: ss[i].sent[v] == [] || ss[i].sent[v] == [Full(net, v)]
    ensures ss[i].certs[0].value.Verifies()
    ensures ss[i].finished > 0 <==> |ss[i].certs[0].value.signers| >= net.NMajority()
  {
    RunInv(net, ss, es, i);
    forall v | 1 <= v < net.n ensures ss[i].sent[v] == [] || ss[i].sent[v] == [Full(net, v)] {
      assert NodeOk(net, ss[i], v);
    }
  }

  /** From the leaves up: once nothing is left to happen, every replica has sent its subtree. */
  lemma {:induction false} AllSent(net: Net, s: State, v: nat)
    requires Inv(net, s) && Quiescent(net, s) && 1 <= v < net.n
    ensures s.sent[v] == [Full(net, v)]
    decreases net.n - v
  {
    assert NodeOk(net, s, v);
    if !net.IsLeaf(v) {
      forall j | 0 <= j < net.n && IsChild(net.n, net.m, v, j) ensures ArrivedFrom(s, j) {
        AllSent(net, s, j);
        assert s.sent[j][0] == Full(net, j);
      }
      GainedBounds(net, s, v);
    }
  }

  /** Convergecast: in a patient tree, in every run that comes to rest, every replica below the root has relayed exactly
    * once, with exactly its subtree's signers, and the root's certificate verifies; it holds a quorum, and has been
    * passed on, exactly if the proposer's own signature is in it or there are at least four replicas. */
  lemma ConvergecastCompletes(net: Net, ss: seq<State>, es: seq<Event>)
    requires IsRun(net, ss, es) && Patient(net) && Quiescent(net, ss[|es|])
    ensures forall v | 1 <= v < net.n :: ss[|es|].sent[v] == [Full(net, v)]
    ensures ss[|es|].certs[0].Some? && ss[|es|].certs[0].value.Verifies()
    ensures ss[|es|].finished > 0 <==> |ss[|es|].certs[0].value.signers| >= net.NMajority()
    ensures ss[|es|].finished > 0 <==> net.rootSigns || net.n >= 4
  {
    var s := ss[|es|];
    RunInv(net, ss, es, |es|);
    forall v | 1 <= v < net.n ensures s.sent[v] == [Full(net, v)] {
      AllSent(net, s, v);
    }
    GainedBounds(net, s, 0);
    RootSubtree(net);
    assert |UpTo(net.n) - {0}| == net.n - 1;
    if s.finished == 0 {
      forall j | 0 <= j < net.n && IsChild(net.n, net.m, 0, j) ensures ArrivedFrom(s, j) {
        assert s.sent[j][0] == Full(net, j);
      }
      SubsetSize(UpTo(net.n) - {0}, s.certs[0].value.signers);
      if net.rootSigns {
        SubsetSize(UpTo(net.n), s.certs[0].value.signers);
      }
    } else if !net.rootSigns {
      SubsetSize(s.certs[0].value.signers, UpTo(net.n) - {0});
    }
  }

  lemma RootSubtree(net: Net)
    requires net.Valid()
    ensures Sub(net, 0) == UpTo(net.n)
  {
    forall x: nat | x < net.n ensures x in Sub(net, 0) {
      UnderRoot(net.n, net.m, x);
    }
  }

  lemma {:induction false} UnderRoot(n: nat, m: nat, x: nat)
    requires m >= 2 && x < n
    ensures InSubtree(n, m, 0, x)
  {
    if x > 0 {
      UnderRoot(n, m, Parent(n, m, x));
    }
  }
}
