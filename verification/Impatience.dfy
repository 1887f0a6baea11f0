/** When replicas relay too early.  A replica below the root relays once it has numberOfChildren + 1 signers, which
  * counts children and grandchildren only.  If some replica can have that many without one of its children, some
  * run makes it relay a proper part of its subtree; otherwise none ever does. */
module Impatience {
  import opened Blocks
  import opened Votes
  import opened Tree
  import opened TreeShape
  import opened Convergecast

  // ---------- runs, by their last state ----------

  ghost predicate Reached(net: Net, s: State) {
    exists ss, es :: IsRun(net, ss, es) && |ss| == |es| + 1 && ss[|es|] == s
  }

  lemma ReachStep(net: Net, s: State, e: Event)
    requires Reached(net, s) && Enabled(net, s, e)
    ensures Reached(net, Step(net, s, e))
  {
    hide Enabled, Step, Initial;
    var ss, es :| IsRun(net, ss, es) && |ss| == |es| + 1 && ss[|es|] == s;
    var more, all := ss + [Step(net, s, e)], es + [e];
    forall i | 0 <= i < |all| ensures StepAt(net, more, all, i) {
      if i < |es| {
        assert StepAt(net, ss, es, i);
      }
    }
    assert more[|all|] == Step(net, s, e);
  }

  lemma ReachInitial(net: Net)
    requires net.Valid()
    ensures Reached(net, Initial(net))
  {
    var ss, es: seq<Event> := [Initial(net)], [];
    assert IsRun(net, ss, es) && ss[|es|] == Initial(net);
  }

  // ---------- parts of the tree ----------

  /** Nothing has happened below v, v included. */
  predicate Idle(net: Net, s: State, v: nat) {
    && Shaped(net, s) && net.m >= 2
    && forall x | x in Sub(net, v) ::
         s.certs[x].None? && s.sent[x] == [] && x !in s.voted && (x, 0) !in s.taken && (x, 0) !in s.arrived
  }

  /** What is not below v is as it was, and the messages of v itself have not been dealt with. */
  predicate Apart(net: Net, s: State, s': State, v: nat) {
    && Shaped(net, s) && Shaped(net, s') && net.m >= 2
    && (forall x: nat | x < net.n && x !in Sub(net, v) ::
         s'.certs[x] == s.certs[x] && s'.sent[x] == s.sent[x] && (x in s'.voted <==> x in s.voted))
    && (forall x: nat | x < net.n && (x !in Sub(net, v) || x == v) ::
         ((x, 0) in s'.taken <==> (x, 0) in s.taken) && ((x, 0) in s'.arrived <==> (x, 0) in s.arrived))
  }

  lemma SubIn(net: Net, v: nat, i: nat)
    requires net.m >= 2 && v < net.n && IsChild(net.n, net.m, v, i)
    ensures Sub(net, i) <= Sub(net, v) && v !in Sub(net, i) && i in Sub(net, i) && v in Sub(net, v) && v < i < net.n
    ensures forall x | x in Sub(net, i) :: x < net.n
  {
    var n, m := net.n, net.m;
    assert InSubtree(n, m, i, i) && InSubtree(n, m, v, v);
    assert InSubtree(n, m, v, i);
    forall x | x in Sub(net, i) ensures x in Sub(net, v) && x != v {
      SubtreeTransitive(n, m, v, i, x);
      SiblingsDisjoint(n, m, v, i, i, x);
    }
  }

  lemma Siblings(net: Net, v: nat, i: nat, j: nat)
    requires net.m >= 2 && IsChild(net.n, net.m, v, i) && IsChild(net.n, net.m, v, j) && i != j
    ensures Sub(net, i) !! Sub(net, j)
  {
    forall x | x in Sub(net, i) && x in Sub(net, j) ensures false {
      SiblingsDisjoint(net.n, net.m, v, i, j, x);
    }
  }

  lemma ApartWiden(net: Net, s: State, s': State, v: nat, i: nat)
    requires v < net.n && Apart(net, s, s', i) && IsChild(net.n, net.m, v, i)
    ensures Apart(net, s, s', v)
  {
    hide Sub, IsChild;
    SubIn(net, v, i);
  }

  lemma ApartTransitive(net: Net, s: State, s': State, s'': State, v: nat)
    requires Apart(net, s, s', v) && Apart(net, s', s'', v)
    ensures Apart(net, s, s'', v)
  {
    hide Sub;
  }

  /** What v has gained depends on its children's messages only. */
  lemma GainedFrame(net: Net, s: State, s': State, v: nat)
    requires net.m >= 2
    requires forall i: nat | i < net.n && IsChild(net.n, net.m, v, i) :: ArrivedFrom(s', i) <==> ArrivedFrom(s, i)
    ensures Gained(net, s', v) == Gained(net, s, v)
  {
    hide InSubtree, IsChild;
    forall x: nat | x < net.n ensures GainedFrom(net, s', v, x) <==> GainedFrom(net, s, v, x) {
      if GainedFrom(net, s, v, x) {
        var i: nat :| i < net.n && IsChild(net.n, net.m, v, i) && ArrivedFrom(s, i) && InSubtree(net.n, net.m, i, x);
        assert ArrivedFrom(s', i);
      }
      if GainedFrom(net, s', v, x) {
        var i: nat :| i < net.n && IsChild(net.n, net.m, v, i) && ArrivedFrom(s', i) && InSubtree(net.n, net.m, i, x);
        assert ArrivedFrom(s, i);
      }
    }
  }

  // ---------- gathering ----------

  /** What v has signed for so far. */
  function Has(net: Net, s: State, v: nat): set<nat>
    requires net.m >= 2
  {
    Gained(net, s, v) + {v}
  }

  /** v has heard its children below k, skip excepted, is short of its threshold, and the other children are idle. */
  predicate Midway(net: Net, s: State, v: nat, k: nat, skip: nat)
    requires net.m >= 2 && v < net.n
  {
    && Shaped(net, s)
    && s.certs[v] == Some(Each(Has(net, s, v))) && s.sent[v] == [] && |Has(net, s, v)| <= net.NumberOfChildren(v)
    && forall i: nat | i < net.n && IsChild(net.n, net.m, v, i) ::
         if i < k && i != skip then ArrivedFrom(s, i) else Idle(net, s, i)
  }

  /** v has relayed what it has, which is enough for its threshold. */
  predicate Relayed(net: Net, s: State, v: nat, skip: nat)
    requires net.m >= 2 && v < net.n
  {
    && Shaped(net, s)
    && s.sent[v] == [Each(Has(net, s, v))] && |Has(net, s, v)| > net.NumberOfChildren(v)
    && (skip < net.n ==> !ArrivedFrom(s, skip))
  }

  /** The message of child i of v is taken and verified. */
  lemma Hear(net: Net, s: State, v: nat, i: nat) returns (s': State)
    requires Reached(net, s) && net.Valid() && 1 <= v < net.n && Shaped(net, s) && IsChild(net.n, net.m, v, i)
    requires s.sent[i] == [Full(net, i)] && (i, 0) !in s.taken && (i, 0) !in s.arrived
    requires s.certs[v] == Some(Each(Has(net, s, v))) && s.sent[v] == [] && |Has(net, s, v)| <= net.NumberOfChildren(v)
    ensures Reached(net, s') && Shaped(net, s')
    ensures Has(net, s', v) == Has(net, s, v) + Sub(net, i)
    ensures s' == s.(certs := s.certs[v := Some(Each(Has(net, s', v)))],
                     sent := if |Has(net, s', v)| > net.NumberOfChildren(v)
                             then s.sent[v := [Each(Has(net, s', v))]] else s.sent,
                     taken := s.taken + {(i, 0)}, arrived := s.arrived + {(i, 0)})
  {
    var has := Has(net, s, v);
    GainedBounds(net, s, v);
    OwnSubtree(net, v);
    PartNoQuorum(net, v, has);
    NewsIsNew(net, s, v, i);
    MergeDisjoint(has, Sub(net, i));
    assert Enabled(net, s, Arrive(i, 0));
    var s1 := Step(net, s, Arrive(i, 0));
    ReachStep(net, s, Arrive(i, 0));
    assert Enabled(net, s1, Checked(i, 0));
    s' := Step(net, s1, Checked(i, 0));
    ReachStep(net, s1, Checked(i, 0));
    TakenAs(net, s, v, i);
    CheckedAs(net, s1, v, i, has);
    assert s1.sent[v] + [Each(has + Sub(net, i))] == [Each(has + Sub(net, i))];
    GainedStep(net, s, s', v, i);
    assert Has(net, s', v) == has + Sub(net, i);
  }

  lemma OwnSubtree(net: Net, v: nat)
    requires net.m >= 2 && v < net.n
    ensures v in Sub(net, v)
  {
    assert InSubtree(net.n, net.m, v, v);
  }

  lemma TakenAs(net: Net, s: State, v: nat, i: nat)
    requires net.Valid() && Shaped(net, s) && v < net.n && s.certs[v].Some?
    requires |s.certs[v].value.signers| < net.NMajority()
    ensures Take(net, s, v, (i, 0)) == s.(taken := s.taken + {(i, 0)})
  {
    assert s.certs[v := Some(s.certs[v].value)] == s.certs;
  }

  /** v is internal and votes. */
  lemma Open(net: Net, s: State, v: nat, skip: nat) returns (s': State)
    requires Reached(net, s) && net.Valid() && 1 <= v < net.n && Idle(net, s, v) && !net.IsLeaf(v)
    ensures Reached(net, s') && Midway(net, s', v, 0, skip) && Apart(net, s, s', v)
  {
    OwnSubtree(net, v);
    assert Enabled(net, s, Cast(v));
    s' := Step(net, s, Cast(v));
    ReachStep(net, s, Cast(v));
    forall i: nat | i < net.n && IsChild(net.n, net.m, v, i) ensures Idle(net, s', i) && !ArrivedFrom(s', i) {
      SubIn(net, v, i);
    }
    NothingHeard(net, s', v);
    SingleIsEach(v);
    SomeChildCounts(net, v);
    assert Has(net, s', v) == {v};
  }

  lemma NothingHeard(net: Net, s: State, v: nat)
    requires net.m >= 2 && forall i: nat | i < net.n && IsChild(net.n, net.m, v, i) :: !ArrivedFrom(s, i)
    ensures Gained(net, s, v) == {}
  {
  }

  lemma SomeChildCounts(net: Net, v: nat)
    requires net.m >= 2 && v < net.n && !net.IsLeaf(v)
    ensures net.NumberOfChildren(v) >= 1
  {
    var j :| 0 <= j < net.n && IsChild(net.n, net.m, v, j);
    assert j in Counted(net.n, net.m, v, net.n);
    SubsetSize({j}, Counted(net.n, net.m, v, net.n));
  }

  /** Once all children but skip have been heard, v has reached its threshold. */
  lemma NotMidwayAtEnd(net: Net, s: State, v: nat, skip: nat)
    requires net.Valid() && 1 <= v < net.n
    requires skip < net.n ==>
      IsChild(net.n, net.m, v, skip) && |Sub(net, v)| - |Sub(net, skip)| > net.NumberOfChildren(v)
    ensures !Midway(net, s, v, net.n, skip)
  {
    hide Net.NumberOfChildren, Idle, Each;
    CountFits(net, v);
    if !Midway(net, s, v, net.n, skip) {
    } else if skip < net.n {
      SubIn(net, v, skip);
      forall x | x in Sub(net, v) - Sub(net, skip) ensures x in Has(net, s, v) {
        if x != v {
          var i := ChildToward(net.n, net.m, v, x);
          assert i != skip;
        }
      }
      SubsetSize(Sub(net, v) - Sub(net, skip), Has(net, s, v));
    } else {
      GainedBounds(net, s, v);
    }
  }

  /** v hears its children from k on, skip excepted, until it relays. */
  lemma {:induction false} Gather(net: Net, s: State, v: nat, k: nat, skip: nat) returns (s': State)
    requires Reached(net, s) && net.Valid() && 1 <= v < net.n && k <= net.n && Midway(net, s, v, k, skip)
    requires forall u | v < u < net.n :: PatientAt(net, u)
    requires skip < net.n ==>
      IsChild(net.n, net.m, v, skip) && |Sub(net, v)| - |Sub(net, skip)| > net.NumberOfChildren(v)
    ensures Reached(net, s') && Relayed(net, s', v, skip) && Apart(net, s, s', v)
    decreases net.n - v, 0, net.n - k, 1
  {
    hide Midway, Idle, Apart, PatientAt, Net.NumberOfChildren, Sub, IsChild, Relayed, Has;
    if k == net.n {
      NotMidwayAtEnd(net, s, v, skip);
    } else if !IsChild(net.n, net.m, v, k) || k == skip {
      MidwaySkip(net, s, v, k, skip);
      s' := Gather(net, s, v, k + 1, skip);
    } else {
      var s1 := HearNext(net, s, v, k, skip);
      if Midway(net, s1, v, k + 1, skip) {
        s' := Gather(net, s1, v, k + 1, skip);
        ApartTransitive(net, s, s1, s', v);
      } else {
        s' := s1;
      }
    }
  }

  lemma MidwaySkip(net: Net, s: State, v: nat, k: nat, skip: nat)
    requires net.m >= 2 && v < net.n && Midway(net, s, v, k, skip)
    requires !IsChild(net.n, net.m, v, k) || k == skip
    ensures Midway(net, s, v, k + 1, skip)
  {
    hide Idle, IsChild, Has;
  }

  lemma HearNext(net: Net, s: State, v: nat, k: nat, skip: nat) returns (s': State)
    requires Reached(net, s) && net.Valid() && 1 <= v < net.n && k < net.n && Midway(net, s, v, k, skip)
    requires forall u | v < u < net.n :: PatientAt(net, u)
    requires IsChild(net.n, net.m, v, k) && k != skip
    requires skip < net.n ==> IsChild(net.n, net.m, v, skip)
    ensures Reached(net, s') && Apart(net, s, s', v)
    ensures Midway(net, s', v, k + 1, skip) || Relayed(net, s', v, skip)
    decreases net.n - v, 0, net.n - k, 0
  {
    hide PatientAt, Net.NumberOfChildren, Each;
    SubIn(net, v, k);
    assert Idle(net, s, k);
    var s1 := Complete(net, s, k);
    AfterChild(net, s, s1, v, k, skip);
    s' := Hear(net, s1, v, k);
    AfterHearing(net, s, s1, s', v, k, skip);
  }

  lemma IdleApart(net: Net, s: State, s': State, i: nat, k: nat)
    requires Apart(net, s, s', k) && Sub(net, i) !! Sub(net, k) && Shaped(net, s)
    requires forall x | x in Sub(net, i) :: x < net.n
    ensures Idle(net, s, i) ==> Idle(net, s', i)
  {
    hide Sub;
    if Idle(net, s, i) {
      forall x | x in Sub(net, i)
        ensures s'.certs[x].None? && s'.sent[x] == [] && x !in s'.voted && (x, 0) !in s'.taken && (x, 0) !in s'.arrived
      {
        assert x !in Sub(net, k);
        assert (x, 0) in s'.taken <==> (x, 0) in s.taken;
      }
    }
  }

  lemma IdleHearing(net: Net, s: State, s': State, i: nat, v: nat, k: nat)
    requires Shaped(net, s) && Shaped(net, s') && net.m >= 2 && v < net.n && v !in Sub(net, i) && k !in Sub(net, i)
    requires forall x | x in Sub(net, i) :: x < net.n
    requires s' == s.(certs := s.certs[v := s'.certs[v]], sent := s.sent[v := s'.sent[v]],
                      taken := s.taken + {(k, 0)}, arrived := s.arrived + {(k, 0)})
    ensures Idle(net, s, i) ==> Idle(net, s', i)
  {
    hide Sub;
  }

  /** While child k completes, nothing changes for v and its other children. */
  lemma AfterChild(net: Net, s: State, s1: State, v: nat, k: nat, skip: nat)
    requires net.Valid() && 1 <= v < net.n && Midway(net, s, v, k, skip) && IsChild(net.n, net.m, v, k) && k != skip
    requires Apart(net, s, s1, k)
    ensures Has(net, s1, v) == Has(net, s, v)
    ensures s1.certs[v] == s.certs[v] && s1.sent[v] == s.sent[v] && (k, 0) !in s1.taken && (k, 0) !in s1.arrived
    ensures forall i: nat | i < net.n && IsChild(net.n, net.m, v, i) && i != k ::
      if i < k && i != skip then ArrivedFrom(s1, i) else Idle(net, s1, i)
  {
    hide Sub, Net.NumberOfChildren, Each, IsChild, Gained;
    SubIn(net, v, k);
    assert Idle(net, s, k);
    assert (k, 0) !in s.taken && (k, 0) !in s.arrived;
    forall i: nat | i < net.n && IsChild(net.n, net.m, v, i)
      ensures ArrivedFrom(s1, i) <==> ArrivedFrom(s, i)
      ensures i != k ==> if i < k && i != skip then ArrivedFrom(s1, i) else Idle(net, s1, i)
    {
      SubIn(net, v, i);
      if i != k {
        Siblings(net, v, i, k);
        IdleApart(net, s, s1, i, k);
      }
    }
    GainedFrame(net, s, s1, v);
  }

  lemma AfterHearing(net: Net, s: State, s1: State, s': State, v: nat, k: nat, skip: nat)
    requires net.Valid() && 1 <= v < net.n && IsChild(net.n, net.m, v, k) && k != skip && Apart(net, s, s1, k)
    requires skip < net.n ==> IsChild(net.n, net.m, v, skip)
    requires Shaped(net, s1) && s1.sent[v] == []
    requires forall i: nat | i < net.n && IsChild(net.n, net.m, v, i) && i != k ::
      if i < k && i != skip then ArrivedFrom(s1, i) else Idle(net, s1, i)
    requires s' == s1.(certs := s1.certs[v := Some(Each(Has(net, s', v)))],
                       sent := if |Has(net, s', v)| > net.NumberOfChildren(v)
                               then s1.sent[v := [Each(Has(net, s', v))]] else s1.sent,
                       taken := s1.taken + {(k, 0)}, arrived := s1.arrived + {(k, 0)})
    ensures Apart(net, s, s', v)
    ensures Midway(net, s', v, k + 1, skip) || Relayed(net, s', v, skip)
  {
    hide Sub, Net.NumberOfChildren, Each, IsChild, Has;
    SubIn(net, v, k);
    ApartWiden(net, s, s1, v, k);
    forall i: nat | i < net.n && IsChild(net.n, net.m, v, i) && i != k ensures Idle(net, s1, i) ==> Idle(net, s', i) {
      SubIn(net, v, i);
      Siblings(net, v, i, k);
      IdleHearing(net, s1, s', i, v, k);
    }
    if skip < net.n {
      SubIn(net, v, skip);
    }
  }

  lemma {:induction false} Complete(net: Net, s: State, v: nat) returns (s': State)
    requires Reached(net, s) && net.Valid() && 1 <= v < net.n && Idle(net, s, v)
    requires forall u | v <= u < net.n :: PatientAt(net, u)
    ensures Reached(net, s') && Apart(net, s, s', v) && s'.sent[v] == [Full(net, v)]
    decreases net.n - v, 1, 0, 0
  {
    hide Gained, Net.NumberOfChildren, Midway;
    if net.IsLeaf(v) {
      OwnSubtree(net, v);
      s' := Step(net, s, Cast(v));
      ReachStep(net, s, Cast(v));
      LeafSub(net, v);
      SingleIsEach(v);
    } else {
      var s1 := Open(net, s, v, net.n);
      s' := Gather(net, s1, v, 0, net.n);
      ApartTransitive(net, s, s1, s', v);
      GainedBounds(net, s', v);
      assert PatientAt(net, v);
      if Has(net, s', v) != Sub(net, v) {
        var j :| 0 <= j < net.n && IsChild(net.n, net.m, v, j) && !ArrivedFrom(s', j);
        MissesChild(net, s', v, j);
      }
    }
  }

  // ---------- the condition is exact ----------

  /** The last replica that is not patient. */
  lemma {:induction false} LastImpatient(net: Net, p: nat) returns (v: nat)
    requires net.Valid() && 1 <= p < net.n && !PatientAt(net, p)
    ensures p <= v < net.n && !PatientAt(net, v) && forall u | v < u < net.n :: PatientAt(net, u)
    decreases net.n - p
  {
    hide PatientAt;
    if u :| p < u < net.n && !PatientAt(net, u) {
      v := LastImpatient(net, u);
    } else {
      v := p;
    }
  }

  lemma InitialIdle(net: Net, v: nat)
    requires net.Valid() && 1 <= v < net.n
    ensures Idle(net, Initial(net), v)
  {
    forall x | x in Sub(net, v) ensures x != 0 {
      assert !InSubtree(net.n, net.m, v, 0);
    }
  }

  /** A tree that is not patient has a run in which a replica relays a proper part of its subtree. */
  lemma RelaysPart(net: Net) returns (ss: seq<State>, es: seq<Event>, v: nat, q: set<nat>)
    requires net.Valid() && !Patient(net)
    ensures IsRun(net, ss, es) && |ss| == |es| + 1 && 1 <= v < net.n && Shaped(net, ss[|es|])
    ensures ss[|es|].sent[v] == [Each(q)] && q < Sub(net, v)
  {
    var p :| 1 <= p < net.n && !PatientAt(net, p);
    v := LastImpatient(net, p);
    var j :| 0 <= j < net.n && IsChild(net.n, net.m, v, j) && |Sub(net, v)| - |Sub(net, j)| > net.NumberOfChildren(v);
    hide PatientAt, Net.NumberOfChildren, Sub, Midway;
    NotLeaf(net, v, j);
    ReachInitial(net);
    InitialIdle(net, v);
    var s1 := Open(net, Initial(net), v, j);
    var s := Gather(net, s1, v, 0, j);
    MissesChild(net, s, v, j);
    q := Has(net, s, v);
    ss, es :| IsRun(net, ss, es) && |ss| == |es| + 1 && ss[|es|] == s;
  }

  /** v has relayed nothing or its whole subtree once. */
  predicate AllOrNothing(net: Net, s: State, v: nat)
    requires net.m >= 2
  {
    Shaped(net, s) && v < net.n && (s.sent[v] == [] || s.sent[v] == [Full(net, v)])
  }

  /** Exactly in patient trees no replica ever relays anything but its whole subtree. */
  lemma PatientExactly(net: Net)
    requires net.Valid()
    ensures Patient(net) <==> forall s, v | Reached(net, s) && 1 <= v < net.n :: AllOrNothing(net, s, v)
  {
    hide Patient, IsRun, Sub;
    if Patient(net) {
      forall s, v | Reached(net, s) && 1 <= v < net.n ensures AllOrNothing(net, s, v) {
        var ss, es :| IsRun(net, ss, es) && |ss| == |es| + 1 && ss[|es|] == s;
        NeverPartial(net, ss, es, |es|);
      }
    } else {
      var ss, es, v, q := RelaysPart(net);
      assert Reached(net, ss[|es|]);
      assert Each(q).signers != Full(net, v).signers;
      assert !AllOrNothing(net, ss[|es|], v);
    }
  }
}
