/** Which rejection `all` takes.  Settling one promise may settle others before its own callbacks are through, so
  * the input rejected first need not be the one whose callback runs first. */
module PromiseOrder {
  import opened Blocks
  import opened Promises

  // ---------- who has rejected ----------

  /** The join has registered on p, and p is rejected. */
  predicate Heard(s: Loop, j: nat, p: nat)
    requires j < |s.joins|
  {
    var jn := s.joins[j];
    exists i :: 0 <= i < |jn.ids| && i < |jn.inputs| && jn.inputs[i] == p && IsRejected(s, p)
  }

  predicate Pending(s: Loop, j: nat)
    requires j < |s.joins|
  {
    StateOf(s, s.joins[j].target).None?
  }

  /** The k-th callback to fire was that of input i, which is rejected, and those before were of no rejected input. */
  predicate Earliest(s: Loop, j: nat, k: nat, i: nat)
    requires j < |s.joins|
  {
    var jn := s.joins[j];
    && k < |s.fired| && i < |jn.ids| && i < |jn.inputs| && s.fired[k] == jn.ids[i] && IsRejected(s, jn.inputs[i])
    && forall k', i' | 0 <= k' < k && 0 <= i' < |jn.ids| && i' < |jn.inputs| && s.fired[k'] == jn.ids[i'] ::
         !IsRejected(s, jn.inputs[i'])
  }

  /** The first callback of the join that fired with a rejection was one registered on p. */
  predicate Wins(s: Loop, j: nat, p: nat)
    requires j < |s.joins|
  {
    exists k, i :: 0 <= k < |s.fired| && 0 <= i < |s.joins[j].inputs| && Earliest(s, j, k, i) &&
      s.joins[j].inputs[i] == p
  }

  // ---------- registrations and their places ----------

  lemma {:induction false} InStack(ts: seq<Task>, m: nat, t: nat)
    requires m < |ts| && ts[m].Call? && ts[m].id == t
    ensures Stacked(ts, t) >= 1
  {
    if m > 0 {
      InStack(ts[1..], m - 1, t);
    }
  }

  lemma {:induction false} InRegs(regs: seq<Reg>, m: nat, t: nat)
    requires m < |regs| && regs[m].id == t
    ensures AmongRegs(regs, t) >= 1
  {
    if m > 0 {
      InRegs(regs[1..], m - 1, t);
    }
  }

  lemma {:induction false} InPromises(ps: seq<Promise>, p: nat, m: nat, t: nat)
    requires p < |ps| && m < |ps[p].regs| && ps[p].regs[m].id == t
    ensures Waiting(ps, t) >= 1
  {
    if p == 0 {
      InRegs(ps[0].regs, m, t);
    } else {
      InPromises(ps[1..], p - 1, m, t);
    }
  }

  lemma {:induction false} StackedTwice(ts: seq<Task>, m: nat, k: nat, t: nat)
    requires m < k < |ts| && ts[m].Call? && ts[m].id == t && ts[k].Call? && ts[k].id == t
    ensures Stacked(ts, t) >= 2
  {
    if m == 0 {
      InStack(ts[1..], k - 1, t);
    } else {
      StackedTwice(ts[1..], m - 1, k - 1, t);
    }
  }

  /** Where a registration is about to run it neither waits nor has fired, and is about to run once. */
  lemma OnlyThere(s: Loop, m: nat)
    requires OnePlace(s) && m < |s.stack| && s.stack[m].Call?
    ensures Waiting(s.promises, s.stack[m].id) == 0 && s.stack[m].id !in s.fired && s.stack[m].id < s.next
    ensures forall k | 0 <= k < |s.stack| && s.stack[k].Call? && s.stack[k].id == s.stack[m].id :: k == m
  {
    hide Stacked, Waiting;
    var t := s.stack[m].id;
    InStack(s.stack, m, t);
    assert Places(s, t) <= 1;
    forall k | 0 <= k < |s.stack| && s.stack[k].Call? && s.stack[k].id == t ensures k == m {
      if k < m {
        StackedTwice(s.stack, k, m, t);
      } else if m < k {
        StackedTwice(s.stack, m, k, t);
      }
    }
  }

  lemma FiredThere(s: Loop, t: nat)
    requires OnePlace(s) && t in s.fired
    ensures t < s.next && Waiting(s.promises, t) == 0
  {
    hide Stacked, Waiting;
    assert Places(s, t) >= 1;
  }

  // ---------- what the invariant says of rejected inputs ----------

  lemma SlotOf(s: Loop, j: nat, i: nat)
    requires Inv(s) && j < |s.joins| && i < |s.joins[j].ids| && i < |s.joins[j].inputs|
    ensures JoinOk(s, j, Nobody) && SlotOk(s, j, i, Nobody) && OnePlace(s)
  {
    hide SlotOk;
    assert JoinOk(s, j, Nobody);
  }

  /** A callback fires only when its input is settled. */
  lemma FiredSettled(s: Loop, j: nat, i: nat)
    requires Inv(s) && j < |s.joins| && i < |s.joins[j].ids| && i < |s.joins[j].inputs|
    requires s.joins[j].ids[i] in s.fired
    ensures StateOf(s, s.joins[j].inputs[i]).Some?
  {
    SlotOf(s, j, i);
    hide Inv, JoinOk, Waiting;
    var jn, p := s.joins[j], s.joins[j].inputs[i];
    if StateOf(s, p).None? {
      var g := Reg(jn.ids[i], Store(j, i), Pass(jn.target));
      var m :| 0 <= m < |s.promises[p].regs| && s.promises[p].regs[m] == g;
      InPromises(s.promises, p, m, g.id);
      FiredThere(s, g.id);
    }
  }

  /** While the target is pending, the callback of a rejected input is about to run. */
  lemma RejectedWaits(s: Loop, j: nat, i: nat) returns (m: nat)
    requires Inv(s) && j < |s.joins| && i < |s.joins[j].ids| && i < |s.joins[j].inputs|
    requires IsRejected(s, s.joins[j].inputs[i]) && Pending(s, j)
    ensures m < |s.stack|
    ensures s.stack[m] == Call(s.joins[j].ids[i], Pass(s.joins[j].target), StateOf(s, s.joins[j].inputs[i]).value)
  {
    SlotOf(s, j, i);
    hide Inv, JoinOk;
    m :| 0 <= m < |s.stack|
      && s.stack[m] == Call(s.joins[j].ids[i], Pass(s.joins[j].target), StateOf(s, s.joins[j].inputs[i]).value);
  }

  /** Once the callback of a rejected input has fired, the promise of all is rejected. */
  lemma FiredRejects(s: Loop, j: nat, i: nat)
    requires Inv(s) && j < |s.joins| && i < |s.joins[j].ids| && i < |s.joins[j].inputs|
    requires s.joins[j].ids[i] in s.fired && IsRejected(s, s.joins[j].inputs[i])
    ensures IsRejected(s, s.joins[j].target)
  {
    hide Inv;
    if Pending(s, j) {
      var m := RejectedWaits(s, j, i);
      InvPlaces(s);
      OnlyThere(s, m);
    } else if IsFulfilled(s, s.joins[j].target) {
      FulfilledAll(s, j, i);
    }
  }

  lemma InvPlaces(s: Loop)
    requires Inv(s)
    ensures OnePlace(s)
  {
  }

  lemma FulfilledAll(s: Loop, j: nat, i: nat)
    requires Inv(s) && j < |s.joins| && i < |s.joins[j].ids| && i < |s.joins[j].inputs|
    requires IsFulfilled(s, s.joins[j].target)
    ensures IsFulfilled(s, s.joins[j].inputs[i])
  {
    SlotOf(s, j, i);
    hide Inv;
    MissingSome(s.joins[j].results);
  }

  // ---------- one step ----------

  /** The callback that rejects the promise of all. */
  lemma TargetStep(s: Loop, e: Event, j: nat) returns (i: nat)
    requires Inv(s) && Enabled(s, e) && j < |s.joins| && Pending(s, j)
    requires j < |Step(s, e).joins| && IsRejected(Step(s, e), s.joins[j].target)
    ensures i < |s.joins[j].ids| && i < |s.joins[j].inputs| && e == Continue && s.stack != []
    ensures s.stack[0].Call? && s.stack[0].id == s.joins[j].ids[i]
    ensures StateOf(s, s.joins[j].inputs[i]) == StateOf(Step(s, e), s.joins[j].target)
    ensures IsRejected(s, s.joins[j].inputs[i])
    ensures Step(s, e).fired == s.fired + [s.joins[j].ids[i]]
  {
    assert JoinOk(s, j, Nobody);
    var t := s.joins[j].target;
    assert e == Continue by {
      hide JoinOk, Inv, Run;
      OnlyRunSettles(s, e, j);
    }
    var k := s.stack[0];
    assert k in s.stack && TaskOk(s, k);
    hide Inv, JoinOk, TasksOk, JoinsOk, Wf;
    i := RejectingCall(s, j);
  }

  lemma OnlyRunSettles(s: Loop, e: Event, j: nat)
    requires Inv(s) && Enabled(s, e) && j < |s.joins| && Pending(s, j) && s.joins[j].target < |s.promises|
    requires s.promises[s.joins[j].target].owner.Some?
    requires StateOf(Step(s, e), s.joins[j].target).Some?
    ensures e == Continue
  {
    hide Inv, Run;
  }

  lemma RejectingCall(s: Loop, j: nat) returns (i: nat)
    requires Wf(s) && s.stack != [] && TaskOk(s, s.stack[0]) && j < |s.joins| && Pending(s, j)
    requires s.joins[j].target < |s.promises| && s.promises[s.joins[j].target].owner == Some(j)
    requires IsRejected(Run(s), s.joins[j].target)
    ensures i < |s.joins[j].ids| && i < |s.joins[j].inputs|
    ensures s.stack[0].Call? && s.stack[0].id == s.joins[j].ids[i]
    ensures StateOf(s, s.joins[j].inputs[i]) == StateOf(Run(s), s.joins[j].target)
    ensures IsRejected(s, s.joins[j].inputs[i])
    ensures Run(s).fired == s.fired + [s.joins[j].ids[i]]
  {
    assert s.stack[0].Call? && s.stack[0].action == Pass(s.joins[j].target) by {
      hide Fill;
    }
    var id, r := s.stack[0].id, s.stack[0].result;
    var q :| CallOk(s, id, Pass(s.joins[j].target), r, q);
    assert Registered(s.joins[j], id, q);
    i :| 0 <= i < |s.joins[j].ids| && i < |s.joins[j].inputs| && s.joins[j].ids[i] == id && s.joins[j].inputs[i] == q;
  }

  /** The registrations of a join grow by the next number, on its turn. */
  lemma IdsStep(s: Loop, e: Event, j: nat)
    requires Enabled(s, e) && j < |Step(s, e).joins|
    ensures j >= |s.joins| ==> Step(s, e).joins[j].ids == []
    ensures j < |s.joins| ==>
      || Step(s, e).joins[j].ids == s.joins[j].ids
      || (Step(s, e).joins[j].ids == s.joins[j].ids + [s.next] && e.Continue? && s.stack[0] == Wire(j)
          && Step(s, e).next == s.next + 1)
    ensures j < |s.joins| ==>
      Step(s, e).joins[j].inputs == s.joins[j].inputs && Step(s, e).joins[j].target == s.joins[j].target
    ensures s.next <= Step(s, e).next
  {
    hide Wf;
  }

  // ---------- the numbers of registrations ----------

  /** Registrations are numbered in the order they are made, and the next number is unused. */
  predicate Numbered(s: Loop) {
    forall j {:trigger s.joins[j]} | 0 <= j < |s.joins| ::
      && (forall i | 0 <= i < |s.joins[j].ids| :: s.joins[j].ids[i] < s.next)
      && (forall i, i' | 0 <= i < i' < |s.joins[j].ids| :: s.joins[j].ids[i] < s.joins[j].ids[i'])
  }

  lemma NumberedStep(s: Loop, e: Event)
    requires Enabled(s, e) && Numbered(s)
    ensures Numbered(Step(s, e))
  {
    hide Step, Enabled;
    var s' := Step(s, e);
    forall j | 0 <= j < |s'.joins|
      ensures forall i | 0 <= i < |s'.joins[j].ids| :: s'.joins[j].ids[i] < s'.next
      ensures forall i, i' | 0 <= i < i' < |s'.joins[j].ids| :: s'.joins[j].ids[i] < s'.joins[j].ids[i']
    {
      IdsStep(s, e, j);
    }
  }

  /** The numbers of a join differ. */
  lemma SameId(s: Loop, j: nat, i: nat, k: nat)
    requires Numbered(s) && j < |s.joins| && i < |s.joins[j].ids| && k < |s.joins[j].ids|
    requires s.joins[j].ids[i] == s.joins[j].ids[k]
    ensures i == k
  {
  }

  // ---------- the first callback to fire ----------

  lemma EarliestUnique(s: Loop, j: nat, k: nat, i: nat, k': nat, i': nat)
    requires Numbered(s) && j < |s.joins| && Earliest(s, j, k, i) && Earliest(s, j, k', i')
    ensures k == k' && i == i'
  {
    hide Numbered;
    if k == k' {
      SameId(s, j, i, i');
    }
  }

  /** Which callback was first does not change. */
  lemma EarliestStays(s: Loop, e: Event, j: nat, k: nat, i: nat)
    requires Inv(s) && Numbered(s) && Enabled(s, e) && j < |s.joins| && Earliest(s, j, k, i)
    ensures j < |Step(s, e).joins| && Earliest(Step(s, e), j, k, i)
  {
    StepEvolves(s, e);
    IdsStep(s, e, j);
    hide Step, Enabled, Inv;
    var s' := Step(s, e);
    forall k', i' | 0 <= k' < k && 0 <= i' < |s'.joins[j].ids| && i' < |s'.joins[j].inputs|
                    && s'.fired[k'] == s'.joins[j].ids[i']
      ensures !IsRejected(s', s'.joins[j].inputs[i'])
    {
      assert s.fired[k'] == s'.fired[k'];
      InvPlaces(s);
      FiredThere(s, s.fired[k']);
      assert i' < |s.joins[j].ids|;
      FiredSettled(s, j, i');
    }
  }

  /** The step that rejects the promise of all makes its callback the first. */
  lemma EarliestStarts(s: Loop, e: Event, j: nat) returns (i: nat)
    requires Inv(s) && Numbered(s) && Enabled(s, e) && j < |s.joins| && Pending(s, j)
    requires j < |Step(s, e).joins| && IsRejected(Step(s, e), s.joins[j].target)
    ensures Earliest(Step(s, e), j, |s.fired|, i)
    ensures i < |s.joins[j].ids| && i < |s.joins[j].inputs| && IsRejected(s, s.joins[j].inputs[i])
    ensures s.stack != [] && s.stack[0].Call? && s.stack[0].id == s.joins[j].ids[i] && e == Continue
    ensures StateOf(s, s.joins[j].inputs[i]) == StateOf(Step(s, e), s.joins[j].target)
  {
    i := TargetStep(s, e, j);
    StepEvolves(s, e);
    IdsStep(s, e, j);
    hide Step, Enabled, Inv;
    var s' := Step(s, e);
    forall k', i' | 0 <= k' < |s.fired| && 0 <= i' < |s'.joins[j].ids| && i' < |s'.joins[j].inputs|
                    && s'.fired[k'] == s'.joins[j].ids[i']
      ensures !IsRejected(s', s'.joins[j].inputs[i'])
    {
      assert s.fired[k'] == s'.fired[k'];
      InvPlaces(s);
      FiredThere(s, s.fired[k']);
      assert i' < |s.joins[j].ids|;
      FiredSettled(s, j, i');
      if IsRejected(s, s.joins[j].inputs[i']) {
        FiredRejects(s, j, i');
      }
    }
  }

  lemma {:induction false} RunNumbered(ss: seq<Loop>, es: seq<Event>, k: nat)
    requires IsRun(ss, es) && k < |ss|
    ensures Inv(ss[k]) && Numbered(ss[k])
    ensures k + 1 < |ss| ==> Enabled(ss[k], es[k]) && ss[k + 1] == Step(ss[k], es[k])
  {
    hide Inv, Step, Enabled, Numbered;
    ReachableInv(ss, es, k);
    if k > 0 {
      RunNumbered(ss, es, k - 1);
      NumberedStep(ss[k - 1], es[k - 1]);
    } else {
      assert Numbered(EMPTY) by {
        NothingNumbered();
      }
    }
    if k + 1 < |ss| {
      assert StepAt(ss, es, k);
    }
  }

  lemma NothingNumbered()
    ensures Numbered(EMPTY)
  {
  }

  lemma {:induction false} EarliestLasts(ss: seq<Loop>, es: seq<Event>, a: nat, b: nat, j: nat, k: nat, i: nat)
    requires IsRun(ss, es) && a <= b < |ss| && j < |ss[a].joins| && Earliest(ss[a], j, k, i)
    ensures j < |ss[b].joins| && Earliest(ss[b], j, k, i)
    decreases b
  {
    hide Step, Enabled, Inv, Numbered, Earliest, IsRun;
    if a < b {
      RunStart(ss, es);
      EarliestLasts(ss, es, a, b - 1, j, k, i);
      RunNumbered(ss, es, b - 1);
      EarliestStays(ss[b - 1], es[b - 1], j, k, i);
    }
  }

  /** At every moment of every run: once the promise of all is rejected, its reason is that of the input whose
    * callback was the first of the join's to fire with a rejection. */
  lemma {:induction false} FirstFiredWins(ss: seq<Loop>, es: seq<Event>, b: nat, j: nat) returns (k: nat, i: nat)
    requires IsRun(ss, es) && b < |ss| && j < |ss[b].joins| && IsRejected(ss[b], ss[b].joins[j].target)
    ensures Earliest(ss[b], j, k, i) &&
      StateOf(ss[b], ss[b].joins[j].inputs[i]) == StateOf(ss[b], ss[b].joins[j].target)
    decreases b
  {
    hide Step, Enabled, Inv, Numbered, Earliest, IsRun;
    RunStart(ss, es);
    RunNumbered(ss, es, b - 1);
    var s, s' := ss[b - 1], ss[b];
    IdsStep(s, es[b - 1], j);
    StepEvolves(s, es[b - 1]);
    if j >= |s.joins| {
      NewJoinPending(s, es[b - 1], j);
      assert false;
    } else if Pending(s, j) {
      k := |s.fired|;
      i := EarliestStarts(s, es[b - 1], j);
      assert i < |s.joins[j].inputs|;
    } else {
      SettledStays(s, s', j);
      k, i := FirstFiredWins(ss, es, b - 1, j);
      EarliestStays(s, es[b - 1], j, k, i);
      EarliestIn(s, j, k, i);
    }
  }

  lemma EarliestIn(s: Loop, j: nat, k: nat, i: nat)
    requires j < |s.joins| && Earliest(s, j, k, i)
    ensures i < |s.joins[j].inputs| && k < |s.fired| && i < |s.joins[j].ids| && IsRejected(s, s.joins[j].inputs[i])
  {
  }

  lemma RunStart(ss: seq<Loop>, es: seq<Event>)
    requires IsRun(ss, es)
    ensures |ss| == |es| + 1 && ss[0] == EMPTY
  {
  }

  lemma SettledStays(s: Loop, s': Loop, j: nat)
    requires Evolves(s, s') && j < |s.joins| && !Pending(s, j)
    ensures j < |s'.joins| && StateOf(s', s'.joins[j].target) == StateOf(s, s.joins[j].target)
  {
  }

  lemma NewJoinPending(s: Loop, e: Event, j: nat)
    requires Enabled(s, e) && |s.joins| <= j < |Step(s, e).joins|
    ensures Pending(Step(s, e), j)
  {
  }

  // ---------- last in, first out ----------

  /** What is left of the stack once the step has taken what it takes. */
  function Rest(s: Loop, e: Event): seq<Task>
    requires Enabled(s, e)
  {
    if e.Continue? then s.stack[1..] else s.stack
  }

  /** A callback of the join's. */
  predicate OursCall(jn: Join, t: Task) {
    t.Call? && t.id in jn.ids
  }

  /** What a step puts on the stack: callbacks that waited, or that of a registration just made; and the next turn of
    * a loop of all only where its last one was, or for a new join. */
  ghost predicate PutOn(s: Loop, e: Event, pre: seq<Task>)
    requires Enabled(s, e)
  {
    && Step(s, e).stack == pre + Rest(s, e)
    && (forall t | t in pre && t.Call? :: Waiting(s.promises, t.id) >= 1 || t.id == s.next)
    && (forall j | Wire(j) in pre :: (e.Continue? && s.stack[0] == Wire(j)) || j == |s.joins|)
    && (e.Continue? && s.stack[0].Wire? ==>
          && (forall t | t in pre && t.Call? :: t.id == s.next)
          && forall m | 0 <= m < |pre| && pre[m].Call? :: m == 0)
  }

  lemma SettlePutsOn(s: Loop, p: nat, r: Result) returns (pre: seq<Task>)
    requires Wf(s) && p < |s.promises|
    ensures Settle(s, p, r).stack == pre + s.stack
    ensures forall t | t in pre :: t.Call? && Waiting(s.promises, t.id) >= 1
  {
    pre := if s.promises[p].state.Some? then [] else Calls(s.promises[p].regs, r);
    assert [] + s.stack == s.stack;
    forall t | t in pre ensures t.Call? && Waiting(s.promises, t.id) >= 1 {
      var m :| 0 <= m < |pre| && pre[m] == t;
      InPromises(s.promises, p, m, t.id);
    }
  }

  lemma TargetExists(s: Loop, j: nat)
    requires Wf(s) && j < |s.joins|
    ensures s.joins[j].target < |s.promises|
  {
  }

  lemma RunPutsOn(s: Loop) returns (pre: seq<Task>)
    requires Wf(s) && s.stack != [] && Enabled(s, Continue)
    ensures PutOn(s, Continue, pre)
  {
    hide Wf, Settle, Waiting, WireNext;
    var s1 := Pop(s);
    pre := [];
    match s.stack[0] {
      case Finish(p, r) => pre := SettlePutsOn(s1, p, Bare(r));
      case Wire(j) => pre := WirePutsOn(s1, j);
      case Call(_, Handler(p), r) => pre := [Finish(p, r)];
      case Call(_, Pass(p), r) => pre := SettlePutsOn(s1, p, r);
      case Call(_, Store(j, i), r) =>
        if r.Fulfilled? && Fill(s1, j, i, r.value).joins[j].count == 0 {
          var s2 := Fill(s1, j, i, r.value);
          TargetExists(s2, j);
          pre := SettlePutsOn(s2, s2.joins[j].target, Fulfilled(Values(Unwrap(s2.joins[j].results))));
        } else {
          assert [] + s1.stack == s1.stack;
        }
    }
  }

  lemma WirePutsOn(s: Loop, j: nat) returns (pre: seq<Task>)
    requires Wf(s) && j < |s.joins|
    ensures WireNext(s, j).stack == pre + s.stack
    ensures forall t | t in pre && t.Call? :: t.id == s.next
    ensures forall m | 0 <= m < |pre| && pre[m].Call? :: m == 0
    ensures forall k | Wire(k) in pre :: k == j
  {
    var jn := s.joins[j];
    if |jn.ids| == |jn.inputs| {
      pre := [];
      assert [] + s.stack == s.stack;
    } else {
      assert jn.inputs[|jn.ids|] in jn.inputs;
      hide Wf;
      var p, g := jn.inputs[|jn.ids|], Reg(s.next, Store(j, |jn.ids|), Pass(jn.target));
      if s.promises[p].state.None? {
        pre := [Wire(j)];
      } else {
        var r := s.promises[p].state.value;
        pre := [Call(g.id, g.For(r), r), Wire(j)];
        assert [Call(g.id, g.For(r), r)] + ([Wire(j)] + s.stack) == pre + s.stack;
      }
    }
  }

  lemma StepPutsOn(s: Loop, e: Event) returns (pre: seq<Task>)
    requires Enabled(s, e)
    ensures PutOn(s, e, pre)
  {
    hide Wf, Settle, Waiting, Run;
    pre := [];
    match e {
      case New => assert [] + s.stack == s.stack;
      case Then(p, given) =>
        var s1 := Added(s, FRESH).(next := s.next + 1);
        var g := GivenReg(s, |s.promises|, given);
        if s1.promises[p].state.Some? {
          pre := [Call(g.id, g.For(s1.promises[p].state.value), s1.promises[p].state.value)];
        } else {
          assert [] + s.stack == s.stack;
        }
      case All(inputs) => pre := [Wire(|s.joins|)];
      case SettleIt(p, r) => pre := SettlePutsOn(s, p, r);
      case Continue => pre := RunPutsOn(s);
    }
  }

  /** On the stack st, the callbacks of a join stand above the next turn of its loop. */
  predicate Above(st: seq<Task>, jn: Join, j: nat) {
    forall m, m' | 0 <= m < |st| && 0 <= m' < |st| && st[m] == Wire(j) && OursCall(jn, st[m']) :: m' < m
  }

  predicate AboveWire(s: Loop, j: nat)
    requires j < |s.joins|
  {
    Above(s.stack, s.joins[j], j)
  }

  /** Callbacks that stay on the stack are of the join exactly if they were. */
  lemma OursStays(s: Loop, e: Event, j: nat, m: nat)
    requires OnePlace(s) && Enabled(s, e) && j < |s.joins| && j < |Step(s, e).joins| && m < |s.stack|
    requires OursCall(Step(s, e).joins[j], s.stack[m])
    ensures OursCall(s.joins[j], s.stack[m])
  {
    IdsStep(s, e, j);
    hide Step, Enabled, Stacked, Waiting;
    OnlyThere(s, m);
  }

  /** Callbacks of another join's turn aside, a turn of the join's loop is put back where it was, under its callback. */
  lemma AbovePushed(st: seq<Task>, pre: seq<Task>, d: nat, jn: Join, jn': Join, j: nat)
    requires d <= |st| && Above(st, jn, j)
    requires forall m | 0 <= m < |st| && OursCall(jn', st[m]) :: OursCall(jn, st[m])
    requires Wire(j) in pre ==>
      d == 1 && st[0] == Wire(j) && forall m | 0 <= m < |pre| && pre[m].Call? :: m == 0
    ensures Above(pre + st[d..], jn', j)
  {
    var st' := pre + st[d..];
    forall m, m' | 0 <= m < |st'| && 0 <= m' < |st'| && st'[m] == Wire(j) && OursCall(jn', st'[m'])
      ensures m' < m
    {
      assert if m < |pre| then st'[m] in pre else st'[m] == st[m - |pre| + d];
      assert st'[m'] == if m' < |pre| then pre[m'] else st[m' - |pre| + d];
    }
  }

  lemma PutOnParts(s: Loop, e: Event, pre: seq<Task>, j: nat)
    requires Enabled(s, e) && PutOn(s, e, pre) && j < |s.joins|
    ensures var d := if e.Continue? then 1 else 0;
      && d <= |s.stack| && Step(s, e).stack == pre + s.stack[d..]
      && (Wire(j) in pre ==> d == 1 && s.stack[0] == Wire(j) && forall m | 0 <= m < |pre| && pre[m].Call? :: m == 0)
  {
    hide Step;
  }

  lemma AboveWireStep(s: Loop, e: Event, j: nat)
    requires Inv(s) && Enabled(s, e) && j < |s.joins| && AboveWire(s, j)
    ensures j < |Step(s, e).joins| && AboveWire(Step(s, e), j)
  {
    StepEvolves(s, e);
    InvPlaces(s);
    var pre := StepPutsOn(s, e);
    PutOnParts(s, e, pre, j);
    hide Step, Enabled, Inv, PutOn, OursCall;
    forall m | 0 <= m < |s.stack| && OursCall(Step(s, e).joins[j], s.stack[m])
      ensures OursCall(s.joins[j], s.stack[m]) {
      OursStays(s, e, j, m);
    }
    AbovePushed(s.stack, pre, if e.Continue? then 1 else 0, s.joins[j], Step(s, e).joins[j], j);
  }

  lemma {:induction false} RunAboveWire(ss: seq<Loop>, es: seq<Event>, b: nat, j: nat)
    requires IsRun(ss, es) && b < |ss| && j < |ss[b].joins|
    ensures AboveWire(ss[b], j)
    decreases b
  {
    hide Step, Enabled, Inv, Numbered, IsRun, AboveWire;
    RunStart(ss, es);
    if b > 0 {
      RunNumbered(ss, es, b - 1);
      IdsStep(ss[b - 1], es[b - 1], j);
      if j < |ss[b - 1].joins| {
        RunAboveWire(ss, es, b - 1, j);
        AboveWireStep(ss[b - 1], es[b - 1], j);
      } else {
        NoneYet(ss[b], j);
      }
    }
  }

  lemma NoneYet(s: Loop, j: nat)
    requires j < |s.joins| && s.joins[j].ids == []
    ensures AboveWire(s, j)
  {
  }

  // ---------- overtaking ----------

  /** A callback of the join's for p. */
  predicate CallFor(jn: Join, p: nat, t: Task) {
    t.Call? && Registered(jn, t.id, p)
  }

  /** A callback of the join's about to pass on the rejection of an input other than p. */
  predicate OtherCall(s: Loop, j: nat, p: nat, t: Task)
    requires j < |s.joins|
  {
    var jn := s.joins[j];
    exists i :: 0 <= i < |jn.ids| && i < |jn.inputs| && jn.inputs[i] != p && IsRejected(s, jn.inputs[i])
      && t == Call(jn.ids[i], Pass(jn.target), StateOf(s, jn.inputs[i]).value)
  }

  /** The rejection of another input stands above all callbacks for p. */
  predicate Overtaken(s: Loop, j: nat, p: nat)
    requires j < |s.joins|
  {
    exists m :: 0 <= m < |s.stack| && OtherCall(s, j, p, s.stack[m])
      && forall m' | 0 <= m' < m :: !CallFor(s.joins[j], p, s.stack[m'])
  }

  /** While the promise of all is pending and p rejected, a step puts no callback for p on the stack, except on a turn
    * of the loop. */
  lemma NothingForP(s: Loop, e: Event, j: nat, p: nat, pre: seq<Task>, t: Task)
    requires Inv(s) && Numbered(s) && Enabled(s, e) && j < |s.joins| && Pending(s, j) && IsRejected(s, p)
    requires j < |Step(s, e).joins| && PutOn(s, e, pre) && t in pre && CallFor(Step(s, e).joins[j], p, t)
    ensures e.Continue? && s.stack[0] == Wire(j) && t.id == s.next
  {
    IdsStep(s, e, j);
    InvPlaces(s);
    hide Step, Enabled, Inv, Waiting, IsRejected;
    var jn := Step(s, e).joins[j];
    var i :| 0 <= i < |jn.ids| && i < |jn.inputs| && jn.ids[i] == t.id && jn.inputs[i] == p;
    if i < |s.joins[j].ids| {
      var m := RejectedWaits(s, j, i);
      OnlyThere(s, m);
    }
  }

  lemma NotOnTop(s: Loop, e: Event, j: nat, p: nat, m: nat)
    requires Inv(s) && AboveWireAt(s, j) && Enabled(s, e) && j < |Step(s, e).joins| && Pending(Step(s, e), j)
    requires e.Continue? && m < |s.stack| && OtherCall(s, j, p, s.stack[m])
    ensures m > 0 && s.stack[0] != Wire(j)
  {
    hide Step;
    OtherIsOurs(s, j, p, s.stack[m]);
    if m == 0 {
      OtherCallSettles(s, j, p);
      RunIsStep(s);
    }
  }

  predicate AboveWireAt(s: Loop, j: nat) {
    j < |s.joins| && AboveWire(s, j)
  }

  lemma RunIsStep(s: Loop)
    requires Enabled(s, Continue)
    ensures Step(s, Continue) == Run(s)
  {
  }

  /** No callback for p is put on, and none that stays becomes one. */
  lemma NoneForP(s: Loop, e: Event, j: nat, p: nat, pre: seq<Task>, m: nat)
    requires Enabled(s, e) && Inv(s) && Numbered(s) && AboveWireAt(s, j) && IsRejected(s, p) && PutOn(s, e, pre)
    requires j < |Step(s, e).joins| && Pending(Step(s, e), j) && Pending(s, j)
    requires m < |s.stack| && OtherCall(s, j, p, s.stack[m])
    requires forall o | 0 <= o < m :: !CallFor(s.joins[j], p, s.stack[o])
    ensures forall t | t in pre :: !CallFor(Step(s, e).joins[j], p, t)
    ensures forall o | 0 <= o < m :: !CallFor(Step(s, e).joins[j], p, s.stack[o])
  {
    InvPlaces(s);
    hide Step, Enabled, Inv, PutOn, IsRejected, Pending, Numbered, OtherCall, CallFor, OnePlace, AboveWire;
    forall o | 0 <= o < m ensures !CallFor(Step(s, e).joins[j], p, s.stack[o]) {
      if CallFor(Step(s, e).joins[j], p, s.stack[o]) {
        CallForStays(s, e, j, p, o);
      }
    }
    forall t | t in pre ensures !CallFor(Step(s, e).joins[j], p, t) {
      if CallFor(Step(s, e).joins[j], p, t) {
        NothingForP(s, e, j, p, pre, t);
        NotOnTop(s, e, j, p, m);
      }
    }
  }

  lemma OvertakenStays(s: Loop, e: Event, j: nat, p: nat)
    requires Inv(s) && Numbered(s) && AboveWireAt(s, j) && Enabled(s, e) && IsRejected(s, p)
    requires Overtaken(s, j, p) && j < |Step(s, e).joins| && Pending(Step(s, e), j) && Pending(s, j)
    ensures Overtaken(Step(s, e), j, p)
  {
    var pre := StepPutsOn(s, e);
    PutOnParts(s, e, pre, j);
    StepEvolves(s, e);
    hide Step, Enabled, Inv, PutOn, IsRejected, Pending, Numbered, OtherCall, CallFor, Evolves, AboveWire;
    var m :| 0 <= m < |s.stack| && OtherCall(s, j, p, s.stack[m])
      && forall m' | 0 <= m' < m :: !CallFor(s.joins[j], p, s.stack[m']);
    if e.Continue? {
      NotOnTop(s, e, j, p, m);
    }
    OtherCallStays(s, Step(s, e), j, p, s.stack[m]);
    NoneForP(s, e, j, p, pre, m);
    OvertakenPushed(Step(s, e), j, p, s.stack, pre, if e.Continue? then 1 else 0, m);
  }

  lemma OvertakenPushed(s: Loop, j: nat, p: nat, st: seq<Task>, pre: seq<Task>, d: nat, m: nat)
    requires j < |s.joins| && d <= m < |st| && s.stack == pre + st[d..] && OtherCall(s, j, p, st[m])
    requires forall t | t in pre :: !CallFor(s.joins[j], p, t)
    requires forall o | 0 <= o < m :: !CallFor(s.joins[j], p, st[o])
    ensures Overtaken(s, j, p)
  {
    hide CallFor, OtherCall;
    var n := m - d + |pre|;
    assert s.stack[n] == st[m];
    forall m' | 0 <= m' < n ensures !CallFor(s.joins[j], p, s.stack[m']) {
      assert s.stack[m'] == if m' < |pre| then pre[m'] else st[m' - |pre| + d];
    }
  }

  lemma OtherIsOurs(s: Loop, j: nat, p: nat, t: Task)
    requires j < |s.joins| && OtherCall(s, j, p, t)
    ensures OursCall(s.joins[j], t)
  {
  }

  lemma CallForStays(s: Loop, e: Event, j: nat, p: nat, m: nat)
    requires OnePlace(s) && Enabled(s, e) && j < |s.joins| && j < |Step(s, e).joins| && m < |s.stack|
    requires CallFor(Step(s, e).joins[j], p, s.stack[m])
    ensures CallFor(s.joins[j], p, s.stack[m])
  {
    IdsStep(s, e, j);
    hide Step, Enabled, Stacked, Waiting;
    OnlyThere(s, m);
  }

  lemma OtherCallStays(s: Loop, s': Loop, j: nat, p: nat, t: Task)
    requires Evolves(s, s') && j < |s.joins| && OtherCall(s, j, p, t)
    ensures OtherCall(s', j, p, t)
  {
    var jn := s.joins[j];
    var i :| 0 <= i < |jn.ids| && i < |jn.inputs| && jn.inputs[i] != p && IsRejected(s, jn.inputs[i])
      && t == Call(jn.ids[i], Pass(jn.target), StateOf(s, jn.inputs[i]).value);
    assert s'.joins[j].ids[i] == jn.ids[i];
  }

  lemma OtherCallSettles(s: Loop, j: nat, p: nat)
    requires Wf(s) && j < |s.joins| && s.stack != [] && OtherCall(s, j, p, s.stack[0])
    ensures j < |Run(s).joins| && !Pending(Run(s), j)
  {
  }

  // ---------- the first rejection ----------

  /** A step makes at most one more input heard. */
  lemma OneNews(s: Loop, e: Event, j: nat, p: nat, q: nat)
    requires Inv(s) && Enabled(s, e) && j < |s.joins| && j < |Step(s, e).joins|
    requires !Heard(s, j, p) && !Heard(s, j, q) && Heard(Step(s, e), j, p) && Heard(Step(s, e), j, q)
    ensures p == q
  {
    IdsStep(s, e, j);
    var x := OneSettled(s, e);
    hide Step, Enabled, Inv, IsRejected;
  }

  /** A step settles at most one promise, and none on a turn of the loop of all. */
  lemma OneSettled(s: Loop, e: Event) returns (p: nat)
    requires Enabled(s, e)
    ensures forall q | q != p && IsRejected(Step(s, e), q) :: IsRejected(s, q)
    ensures e.Continue? && s.stack[0].Wire? && IsRejected(Step(s, e), p) ==> IsRejected(s, p)
  {
    hide Wf, Settle, Run, ThenOn, IsRejected;
    p := 0;
    match e {
      case New => SameStates(s, Step(s, e));
      case Then(q, given) =>
        assert Step(s, e) == ThenOn(s, q, given);
        ThenSettlesNone(s, q, given);
      case All(inputs) => SameStates(s, Step(s, e));
      case SettleIt(q, r) =>
        SettlesOnly(s, q, r);
        p := q;
      case Continue => p := RunSettles(s);
    }
  }

  /** Whoever is rejected in s' was rejected in s. */
  lemma SameStates(s: Loop, s': Loop)
    requires |s.promises| <= |s'.promises|
    requires forall q | 0 <= q < |s.promises| :: s'.promises[q].state == s.promises[q].state
    requires forall q | |s.promises| <= q < |s'.promises| :: s'.promises[q].state.None?
    ensures forall q | IsRejected(s', q) :: IsRejected(s, q)
  {
  }

  lemma ThenSettlesNone(s: Loop, p: nat, given: Given)
    requires Wf(s) && p < |s.promises|
    ensures forall q | IsRejected(ThenOn(s, p, given), q) :: IsRejected(s, q)
  {
    SameStates(s, ThenOn(s, p, given));
  }

  lemma SettlesOnly(s: Loop, p: nat, r: Result)
    requires Wf(s) && p < |s.promises|
    ensures forall q | q != p && IsRejected(Settle(s, p, r), q) :: IsRejected(s, q)
  {
  }

  lemma WireSettlesNone(s: Loop, j: nat)
    requires Wf(s) && j < |s.joins|
    ensures forall q | IsRejected(WireNext(s, j), q) :: IsRejected(s, q)
  {
    var jn := s.joins[j];
    if |jn.ids| < |jn.inputs| {
      assert jn.inputs[|jn.ids|] in jn.inputs;
    }
    SameStates(s, WireNext(s, j));
  }

  lemma RunSettles(s: Loop) returns (p: nat)
    requires Wf(s) && s.stack != []
    ensures forall q | q != p && IsRejected(Run(s), q) :: IsRejected(s, q)
    ensures s.stack[0].Wire? && IsRejected(Run(s), p) ==> IsRejected(s, p)
  {
    hide Wf, Settle, WireNext, IsRejected;
    var s1 := Pop(s);
    SameStates(s, s1);
    p := 0;
    match s.stack[0] {
      case Finish(q, r) =>
        SettlesOnly(s1, q, Bare(r));
        p := q;
      case Wire(j) => WireSettlesNone(s1, j);
      case Call(_, Handler(q), r) => SameStates(s, Run(s));
      case Call(_, Pass(q), r) =>
        SettlesOnly(s1, q, r);
        p := q;
      case Call(_, Store(j, i), r) =>
        if r.Fulfilled? {
          var s2 := Fill(s1, j, i, r.value);
          SameStates(s, s2);
          TargetExists(s2, j);
          SettlesOnly(s2, s2.joins[j].target, Fulfilled(Values(Unwrap(s2.joins[j].results))));
          p := s2.joins[j].target;
        }
    }
  }

  /** When a second input is heard while the promise of all is pending, its callback has just been put on the stack. */
  lemma PutOnNow(s: Loop, e: Event, j: nat, p: nat, q: nat, pre: seq<Task>) returns (m: nat)
    requires Enabled(s, e) && Inv(s) && Inv(Step(s, e)) && Numbered(Step(s, e)) && j < |s.joins|
    requires (forall x | Heard(s, j, x) :: x == p) && q != p && PutOn(s, e, pre)
    requires j < |Step(s, e).joins| && Heard(Step(s, e), j, q) && Pending(Step(s, e), j)
    ensures m < |pre| && pre[m].Call? && OtherCall(Step(s, e), j, p, pre[m])
  {
    PutOnParts(s, e, pre, j);
    IdsStep(s, e, j);
    hide Step, Enabled, PutOn, IsRejected, Pending, CallFor, OnePlace, Inv, Numbered, Evolves;
    var s', d := Step(s, e), if e.Continue? then 1 else 0;
    var jn' := s'.joins[j];
    var i :| 0 <= i < |jn'.ids| && i < |jn'.inputs| && jn'.inputs[i] == q && IsRejected(s', q);
    m := RejectedWaits(s', j, i);
    RejectedResult(s', q);
    if m >= |pre| {
      InRest(s.stack, s'.stack, pre, d, m);
      NotBefore(s, e, j, p, i, m - |pre| + d);
      assert false;
    }
  }

  lemma InRest(st: seq<Task>, st': seq<Task>, pre: seq<Task>, d: nat, m: nat)
    requires d <= |st| && st' == pre + st[d..] && |pre| <= m < |st'|
    ensures m - |pre| + d < |st| && st'[m] == st[m - |pre| + d]
  {
  }

  lemma RejectedResult(s: Loop, q: nat)
    requires IsRejected(s, q)
    ensures StateOf(s, q).Some? && StateOf(s, q).value.Rejected?
  {
  }

  /** So it overtakes the first. */
  lemma Overtakes(s: Loop, e: Event, j: nat, p: nat, q: nat)
    requires Enabled(s, e) && Inv(s) && Inv(Step(s, e)) && Numbered(s) && Numbered(Step(s, e)) && j < |s.joins|
    requires IsRejected(s, p) && (forall x | Heard(s, j, x) :: x == p) && q != p
    requires j < |Step(s, e).joins| && Heard(Step(s, e), j, q) && Pending(Step(s, e), j) && Pending(s, j)
    ensures Overtaken(Step(s, e), j, p)
  {
    var pre := StepPutsOn(s, e);
    PutOnParts(s, e, pre, j);
    var m := PutOnNow(s, e, j, p, q, pre);
    hide Step, Enabled, PutOn, IsRejected, Pending, CallFor, OnePlace, Inv, Numbered, OtherCall, Heard;
    var s' := Step(s, e);
    assert s'.stack[m] == pre[m];
    forall m' | 0 <= m' < m ensures !CallFor(s'.joins[j], p, s'.stack[m']) {
      assert s'.stack[m'] == pre[m'] && pre[m'] in pre;
      if CallFor(s'.joins[j], p, pre[m']) {
        NothingForP(s, e, j, p, pre, pre[m']);
        TurnPutsOne(s, e, pre, m);
      }
    }
  }

  lemma TurnPutsOne(s: Loop, e: Event, pre: seq<Task>, m: nat)
    requires Enabled(s, e) && PutOn(s, e, pre) && e.Continue? && s.stack[0].Wire? && m < |pre| && pre[m].Call?
    ensures m == 0
  {
    hide Step;
  }

  /** A callback that passes on a rejection is of an input that was heard already. */
  lemma NotBefore(s: Loop, e: Event, j: nat, p: nat, i: nat, m: nat)
    requires Inv(s) && Enabled(s, e) && j < |s.joins| && j < |Step(s, e).joins| && Numbered(Step(s, e))
    requires (forall x | Heard(s, j, x) :: x == p) && i < |Step(s, e).joins[j].ids| && i < |Step(s, e).joins[j].inputs|
    requires m < |s.stack| && s.stack[m].Call? && s.stack[m].id == Step(s, e).joins[j].ids[i]
    requires s.stack[m].action == Pass(s.joins[j].target) && s.stack[m].result.Rejected?
    ensures Step(s, e).joins[j].inputs[i] == p
  {
    IdsStep(s, e, j);
    PassIsHeard(s, j, m);
    hide Step, Enabled, Inv;
    var id := s.stack[m].id;
    var k :| 0 <= k < |s.joins[j].ids| && k < |s.joins[j].inputs| && s.joins[j].ids[k] == id
      && Heard(s, j, s.joins[j].inputs[k]);
    assert Step(s, e).joins[j].ids[k] == id;
    SameId(Step(s, e), j, i, k);
  }

  lemma PassIsHeard(s: Loop, j: nat, m: nat)
    requires Inv(s) && j < |s.joins| && m < |s.stack| && s.stack[m].Call? && s.stack[m].result.Rejected?
    requires s.stack[m].action == Pass(s.joins[j].target)
    ensures exists k :: (0 <= k < |s.joins[j].ids| && k < |s.joins[j].inputs|
      && s.joins[j].ids[k] == s.stack[m].id && Heard(s, j, s.joins[j].inputs[k]))
  {
    assert JoinOk(s, j, Nobody);
    var t := s.stack[m];
    assert t in s.stack && TaskOk(s, t);
    hide Inv, JoinOk, TasksOk, JoinsOk;
    var q :| CallOk(s, t.id, Pass(s.joins[j].target), t.result, q);
    assert Registered(s.joins[j], t.id, q);
    var k :| 0 <= k < |s.joins[j].ids| && k < |s.joins[j].inputs| && s.joins[j].ids[k] == t.id &&
      s.joins[j].inputs[k] == q;
    assert Heard(s, j, s.joins[j].inputs[k]);
  }

  /** The callback that rejects the promise of all is not p's if p has been overtaken. */
  lemma OvertakenLoses(s: Loop, e: Event, j: nat, p: nat) returns (i: nat)
    requires Inv(s) && Numbered(s) && Enabled(s, e) && j < |s.joins| && Pending(s, j) && Overtaken(s, j, p)
    requires j < |Step(s, e).joins| && IsRejected(Step(s, e), s.joins[j].target)
    ensures Earliest(Step(s, e), j, |s.fired|, i) && i < |s.joins[j].inputs| && s.joins[j].inputs[i] != p
  {
    i := EarliestStarts(s, e, j);
    hide Step, Enabled, Inv, Numbered, Earliest, Pending;
    var jn := s.joins[j];
    var m :| 0 <= m < |s.stack| && OtherCall(s, j, p, s.stack[m])
      && forall m' | 0 <= m' < m :: !CallFor(jn, p, s.stack[m']);
    if m == 0 {
      var k :| 0 <= k < |jn.ids| && k < |jn.inputs| && jn.inputs[k] != p && IsRejected(s, jn.inputs[k])
        && s.stack[0] == Call(jn.ids[k], Pass(jn.target), StateOf(s, jn.inputs[k]).value);
      SameId(s, j, i, k);
    } else {
      assert Registered(jn, s.stack[0].id, jn.inputs[i]);
    }
  }

  /** From where a second input is heard until the promise of all is settled, the first stays overtaken. */
  lemma {:induction false} RunOvertaken(ss: seq<Loop>, es: seq<Event>, a: nat, b: nat, j: nat, p: nat)
    requires IsRun(ss, es) && a < b < |ss| && j < |ss[a].joins| && j < |ss[b].joins| && Pending(ss[b], j)
    requires (forall x :: !Heard(ss[a], j, x)) && j < |ss[a + 1].joins| && Heard(ss[a + 1], j, p)
    requires exists q :: q != p && Heard(ss[b], j, q)
    ensures Overtaken(ss[b], j, p)
    decreases b
  {
    hide Step, Enabled, Inv, Numbered, IsRun, AboveWire, Heard, Pending, Overtaken, IsRejected;
    RunStart(ss, es);
    RunNumbered(ss, es, b - 1);
    RunNumbered(ss, es, b);
    var s, e := ss[b - 1], es[b - 1];
    var q :| q != p && Heard(ss[b], j, q);
    if b == a + 1 {
      OneNews(s, e, j, p, q);
      assert false;
    }
    JoinStays(ss, es, a, b - 1, j);
    RunAboveWire(ss, es, b - 1, j);
    PendingBefore(s, e, j);
    HeardLasts(ss, es, a + 1, b - 1, j, p);
    HeardIsRejected(s, j, p);
    if exists x :: x != p && Heard(s, j, x) {
      RunOvertaken(ss, es, a, b - 1, j, p);
      OvertakenStays(s, e, j, p);
    } else {
      Overtakes(s, e, j, p, q);
    }
  }

  lemma JoinStays(ss: seq<Loop>, es: seq<Event>, a: nat, b: nat, j: nat)
    requires IsRun(ss, es) && a <= b < |ss| && j < |ss[a].joins|
    ensures j < |ss[b].joins| && ss[b].joins[j].inputs == ss[a].joins[j].inputs
    ensures ss[b].joins[j].target == ss[a].joins[j].target
    ensures !Pending(ss[a], j) ==>
      !Pending(ss[b], j) && StateOf(ss[b], ss[b].joins[j].target) == StateOf(ss[a], ss[a].joins[j].target)
  {
    LaterEvolves(ss, es, a, b);
    hide IsRun;
  }

  lemma HeardLasts(ss: seq<Loop>, es: seq<Event>, a: nat, b: nat, j: nat, p: nat)
    requires IsRun(ss, es) && a <= b < |ss| && j < |ss[a].joins| && Heard(ss[a], j, p)
    ensures j < |ss[b].joins| && Heard(ss[b], j, p)
  {
    LaterEvolves(ss, es, a, b);
    hide IsRun;
    var jn := ss[a].joins[j];
    var i :| 0 <= i < |jn.ids| && i < |jn.inputs| && jn.inputs[i] == p && IsRejected(ss[a], p);
    assert ss[b].joins[j].ids[i] == jn.ids[i];
  }

  lemma HeardIsRejected(s: Loop, j: nat, p: nat)
    requires j < |s.joins|
    ensures Heard(s, j, p) ==> IsRejected(s, p) && p in s.joins[j].inputs
    ensures |s.joins[j].ids| == |s.joins[j].inputs| ==> (Heard(s, j, p) <==> IsRejected(s, p) && p in s.joins[j].inputs)
  {
    var jn := s.joins[j];
    if |jn.ids| == |jn.inputs| && p in jn.inputs && IsRejected(s, p) {
      var i :| 0 <= i < |jn.inputs| && jn.inputs[i] == p;
      assert 0 <= i < |jn.ids|;
    }
  }

  lemma PendingBefore(s: Loop, e: Event, j: nat)
    requires Enabled(s, e) && j < |s.joins| && j < |Step(s, e).joins| && Pending(Step(s, e), j)
    ensures Pending(s, j)
  {
    StepEvolves(s, e);
    hide Step, Enabled;
  }

  /** The step at which the promise of all is settled. */
  lemma {:induction false} SettlingStep(ss: seq<Loop>, es: seq<Event>, a: nat, k: nat, j: nat) returns (b: nat)
    requires IsRun(ss, es) && a < k < |ss| && j < |ss[a].joins| && Pending(ss[a], j)
    requires j < |ss[k].joins| && !Pending(ss[k], j)
    ensures a <= b < k && j < |ss[b].joins| && j < |ss[b + 1].joins| && Pending(ss[b], j) && !Pending(ss[b + 1], j)
    ensures StateOf(ss[b + 1], ss[b + 1].joins[j].target) == StateOf(ss[k], ss[k].joins[j].target)
    decreases k
  {
    hide IsRun, Pending;
    JoinStays(ss, es, a, k - 1, j);
    if Pending(ss[k - 1], j) {
      b := k - 1;
    } else {
      b := SettlingStep(ss, es, a, k - 1, j);
      JoinStays(ss, es, k - 1, k, j);
    }
  }

  /** Before the first input is heard the promise of all is not rejected. */
  lemma NoneHeardPending(ss: seq<Loop>, es: seq<Event>, a: nat, k: nat, j: nat)
    requires IsRun(ss, es) && a < k < |ss| && j < |ss[a].joins| && j < |ss[k].joins|
    requires (forall x :: !Heard(ss[a], j, x)) && IsRejected(ss[k], ss[k].joins[j].target)
    ensures Pending(ss[a], j)
  {
    JoinStays(ss, es, a, k, j);
    hide IsRun, Earliest;
    if !Pending(ss[a], j) {
      var k0, i := FirstFiredWins(ss, es, a, j);
      EarliestIn(ss[a], j, k0, i);
      WiredHeard(ss[a], j, i);
    }
  }

  /** Which rejection wins.  Let p be the input whose rejection the join hears of first: the input rejected first, if
    * all was called on pending promises, or the first in order of those rejected already.  The reason of all is p's
    * exactly if no other input's rejection reaches the join while the promise of all is still pending, which the
    * caller can see of that promise before it rejects another input. */
  lemma FirstRejectionWins(ss: seq<Loop>, es: seq<Event>, a: nat, k: nat, j: nat, p: nat)
    requires IsRun(ss, es) && a < k < |ss| && j < |ss[a].joins|
    requires (forall x :: !Heard(ss[a], j, x)) && j < |ss[a + 1].joins| && Heard(ss[a + 1], j, p)
    requires j < |ss[k].joins| && IsRejected(ss[k], ss[k].joins[j].target)
    ensures Wins(ss[k], j, p) <==>
      forall b, q | a < b < k && q != p && j < |ss[b].joins| && Heard(ss[b], j, q) :: !Pending(ss[b], j)
    ensures Wins(ss[k], j, p) ==> StateOf(ss[k], ss[k].joins[j].target) == StateOf(ss[k], p)
  {
    hide IsRun, Step, Enabled, Inv, Numbered, Heard, Pending, Earliest, Overtaken, IsRejected, Wins;
    RunStart(ss, es);
    NoneHeardPending(ss, es, a, k, j);
    RejectedSettled(ss[k], ss[k].joins[j].target);
    var b := SettlingStep(ss, es, a, k, j);
    RunNumbered(ss, es, b);
    RunNumbered(ss, es, k);
    var s, e := ss[b], es[b];
    JoinStays(ss, es, b, b + 1, j);
    RejectedSettled(ss[b + 1], ss[b + 1].joins[j].target);
    var i := EarliestStarts(s, e, j);
    WiredHeard(s, j, i);
    if exists b', q :: a < b' < k && q != p && j < |ss[b'].joins| && Heard(ss[b'], j, q) && Pending(ss[b'], j) {
      var b', q :| a < b' < k && q != p && j < |ss[b'].joins| && Heard(ss[b'], j, q) && Pending(ss[b'], j);
      if b < b' {
        JoinStays(ss, es, b + 1, b', j);
        assert false;
      }
      HeardLasts(ss, es, b', b, j, q);
      RunOvertaken(ss, es, a, b, j, p);
      i := OvertakenLoses(s, e, j, p);
    }
    EarliestLasts(ss, es, b + 1, k, j, |s.fired|, i);
    EarliestIn(ss[k], j, |s.fired|, i);
    JoinStays(ss, es, b, k, j);
    OnlyWinner(ss[k], j, |s.fired|, i, p);
    var k0, i0 := FirstFiredWins(ss, es, k, j);
    EarliestUnique(ss[k], j, k0, i0, |s.fired|, i);
  }

  lemma RejectedSettled(s: Loop, p: nat)
    ensures IsRejected(s, p) <==> StateOf(s, p).Some? && StateOf(s, p).value.Rejected?
    ensures forall j | 0 <= j < |s.joins| && s.joins[j].target == p :: Pending(s, j) <==> StateOf(s, p).None?
  {
  }

  lemma WiredHeard(s: Loop, j: nat, i: nat)
    requires j < |s.joins| && i < |s.joins[j].ids| && i < |s.joins[j].inputs| && IsRejected(s, s.joins[j].inputs[i])
    ensures Heard(s, j, s.joins[j].inputs[i])
  {
  }

  lemma OnlyWinner(s: Loop, j: nat, k: nat, i: nat, p: nat)
    requires Numbered(s) && j < |s.joins| && i < |s.joins[j].inputs| && Earliest(s, j, k, i)
    ensures Wins(s, j, p) <==> s.joins[j].inputs[i] == p
  {
    EarliestIn(s, j, k, i);
    hide Numbered, Earliest;
    if Wins(s, j, p) {
      var k', i' :| 0 <= k' < |s.fired| && 0 <= i' < |s.joins[j].inputs| && Earliest(s, j, k', i') &&
        s.joins[j].inputs[i'] == p;
      EarliestUnique(s, j, k, i, k', i');
    }
  }

  /** If another input is rejected next, nothing was left to run. */
  predicate Prompt(ss: seq<Loop>, j: nat, p: nat, b: nat)
    requires b + 1 < |ss|
  {
    j < |ss[b].joins| ==>
      forall q | q in ss[b].joins[j].inputs && q != p && !IsRejected(ss[b], q) && IsRejected(ss[b + 1], q) ::
        ss[b].stack == []
  }

  /** A caller that rejects no second input from inside a callback gets the reason of the first.  Inputs rejected
    * beforehand, which the loop of all comes upon in turn, do no harm. */
  lemma PromptCaller(ss: seq<Loop>, es: seq<Event>, a: nat, k: nat, j: nat, p: nat)
    requires IsRun(ss, es) && a < k < |ss| && j < |ss[a].joins|
    requires (forall x :: !Heard(ss[a], j, x)) && j < |ss[a + 1].joins| && Heard(ss[a + 1], j, p)
    requires j < |ss[k].joins| && IsRejected(ss[k], ss[k].joins[j].target)
    requires forall b {:trigger Prompt(ss, j, p, b)} | a < b < k :: Prompt(ss, j, p, b)
    ensures StateOf(ss[k], ss[k].joins[j].target) == StateOf(ss[k], p)
  {
    hide IsRun, Inv, Heard, Pending, Wins, IsRejected;
    RunStart(ss, es);
    forall b, q | a < b < k && q != p && j < |ss[b].joins| && Heard(ss[b], j, q) ensures !Pending(ss[b], j) {
      PromptlySettled(ss, es, a, b, k, j, p, q);
    }
    FirstRejectionWins(ss, es, a, k, j, p);
  }

  lemma {:induction false} PromptlySettled(ss: seq<Loop>, es: seq<Event>, a: nat, b: nat, k: nat, j: nat, p: nat,
    q: nat)
    requires IsRun(ss, es) && a < b < k < |ss| && j < |ss[a].joins| && j < |ss[b].joins| && q != p && Heard(ss[b], j, q)
    requires (forall x :: !Heard(ss[a], j, x)) && j < |ss[a + 1].joins| && Heard(ss[a + 1], j, p)
    requires forall b {:trigger Prompt(ss, j, p, b)} | a < b < k :: Prompt(ss, j, p, b)
    ensures !Pending(ss[b], j)
    decreases b
  {
    hide IsRun, Inv, Heard, Pending, Wins, IsRejected, Step, Enabled, Numbered;
    RunStart(ss, es);
    RunNumbered(ss, es, b - 1);
    JoinStays(ss, es, a, b - 1, j);
    JoinStays(ss, es, b - 1, b, j);
    if b == a + 1 {
      OneNews(ss[a], es[a], j, p, q);
    } else if Heard(ss[b - 1], j, q) {
      PromptlySettled(ss, es, a, b - 1, k, j, p, q);
    } else {
      HeardLasts(ss, es, a + 1, b - 1, j, p);
      HeardIsRejected(ss[b - 1], j, p);
      HeardIsRejected(ss[b], j, q);
      IdsStep(ss[b - 1], es[b - 1], j);
      assert Prompt(ss, j, p, b - 1);
      if IsRejected(ss[b - 1], q) {
        SameIdsHeard(ss[b - 1], ss[b], j, q);
        SomethingToRun(ss[b - 1], es[b - 1]);
        RunAboveWire(ss, es, b - 1, j);
        TurnWhenSettled(ss[b - 1], j, p);
      } else {
        AllSettlesAt(ss[b - 1], j);
        RejectedSettled(ss[b - 1], ss[b - 1].joins[j].target);
      }
    }
  }

  lemma SameIdsHeard(s: Loop, s': Loop, j: nat, q: nat)
    requires j < |s.joins| && j < |s'.joins| && IsRejected(s, q) && !Heard(s, j, q) && Heard(s', j, q)
    requires s'.joins[j].inputs == s.joins[j].inputs
    ensures s'.joins[j].ids != s.joins[j].ids
  {
  }

  /** When it is the turn of the loop of all, and a rejection has been heard, the promise of all is settled: the
    * callback of that rejection stood above. */
  lemma TurnWhenSettled(s: Loop, j: nat, p: nat)
    requires Inv(s) && j < |s.joins| && AboveWire(s, j) && s.stack != [] && s.stack[0] == Wire(j) && Heard(s, j, p)
    ensures !Pending(s, j)
  {
    hide Inv;
    if Pending(s, j) {
      var jn := s.joins[j];
      var i :| 0 <= i < |jn.ids| && i < |jn.inputs| && jn.inputs[i] == p && IsRejected(s, p);
      var m := RejectedWaits(s, j, i);
      NoneUnderTurn(s, j, m);
    }
  }

  lemma NoneUnderTurn(s: Loop, j: nat, m: nat)
    requires j < |s.joins| && AboveWire(s, j) && m < |s.stack| && s.stack[0] == Wire(j)
    ensures !OursCall(s.joins[j], s.stack[m])
  {
  }

  lemma SomethingToRun(s: Loop, e: Event)
    requires Enabled(s, e) && e.Continue?
    ensures s.stack != []
  {
  }

  // ---------- all ----------

  /** all, once nothing is left to run: it is fulfilled exactly when every input is, with the inputs' values in
    * input order whatever the order they came in; it is rejected exactly when some input is, with the reason of the
    * input whose callback was the first to fire with a rejection; and its counter is the number of inputs not
    * fulfilled. */
  lemma AllSettles(ss: seq<Loop>, es: seq<Event>, k: nat, j: nat)
    requires IsRun(ss, es) && k < |ss| && ss[k].stack == [] && j < |ss[k].joins|
    ensures var s, jn := ss[k], ss[k].joins[j];
      && (IsFulfilled(s, jn.target) <==> forall p | p in jn.inputs :: IsFulfilled(s, p))
      && (IsFulfilled(s, jn.target) ==> StateOf(s, jn.target) == Some(Fulfilled(Values(InputValues(s, jn.inputs)))))
      && (IsRejected(s, jn.target) <==> exists p :: p in jn.inputs && IsRejected(s, p))
      && (IsRejected(s, jn.target) ==>
            exists p :: p in jn.inputs && Wins(s, j, p) && StateOf(s, p) == StateOf(s, jn.target))
      && jn.count == Unfulfilled(s, jn.inputs)
  {
    hide IsRun, Earliest, Wins;
    ReachableInv(ss, es, k);
    AllSettlesAt(ss[k], j);
    if IsRejected(ss[k], ss[k].joins[j].target) {
      var k0, i := FirstFiredWins(ss, es, k, j);
      EarliestIn(ss[k], j, k0, i);
      RunNumbered(ss, es, k);
      OnlyWinner(ss[k], j, k0, i, ss[k].joins[j].inputs[i]);
    }
  }

  // ---------- a run in which the first rejection loses ----------

  const ONE: Result := Rejected(Opaque(1))
  const TWO: Result := Rejected(Opaque(2))

  /** Input 0 has a handler that was registered before all was called; while it runs, input 1 is rejected. */
  function LosingEvents(): seq<Event> {
    [New, New, Then(0, OnRejected), All([0, 1]), Continue, Continue, Continue,
     SettleIt(0, ONE), Continue, SettleIt(1, TWO), Continue]
  }

  function LosingState(i: nat): Loop {
    var wait0, wait1 := Reg(1, Store(0, 0), Pass(3)), Reg(2, Store(0, 1), Pass(3));
    var handler := Reg(0, Pass(2), Handler(2));
    var open, target := Promise(None, [], None), Promise(None, [], Some(0));
    var first := Promise(None, [handler], None);
    var join0 := Join([0, 1], 3, [], 2, [None, None]);
    var join := join0.(ids := [1, 2]);
    var both := [first.(regs := [handler, wait0]), open.(regs := [wait1]), open, target];
    var calls := [Call(1, Pass(3), ONE)];
    var lost := [Promise(Some(ONE), [], None), both[1], open, target];
    match i
    case 0 => EMPTY
    case 1 => Loop([open], [], 0, [], [])
    case 2 => Loop([open, open], [], 0, [], [])
    case 3 => Loop([first, open, open], [], 1, [], [])
    case 4 => Loop([first, open, open, target], [join0], 1, [Wire(0)], [])
    case 5 => Loop([both[0], open, open, target], [join0.(ids := [1])], 2, [Wire(0)], [])
    case 6 => Loop(both, [join], 3, [Wire(0)], [])
    case 7 => Loop(both, [join], 3, [], [])
    case 8 => Loop(lost, [join], 3, [Call(0, Handler(2), ONE)] + calls, [])
    case 9 => Loop(lost, [join], 3, [Finish(2, ONE)] + calls, [0])
    case 10 => Loop(lost[1 := Promise(Some(TWO), [], None)], [join], 3, [Call(2, Pass(3), TWO), Finish(2,
      ONE)] + calls, [0])
    case _ =>
      Loop(lost[1 := Promise(Some(TWO), [], None)][3 := target.(state := Some(TWO))], [join], 3,
           [Finish(2, ONE)] + calls, [0, 2])
  }

  function LosingStates(): seq<Loop> {
    seq(12, i requires 0 <= i < 12 => LosingState(i))
  }

  /** What follows LosingState(i). */
  predicate LosingNext(i: nat) {
    i < 11 && Enabled(LosingState(i), LosingEvents()[i]) &&
      LosingState(i + 1) == Step(LosingState(i), LosingEvents()[i])
  }

  lemma LosingStart(i: nat)
    requires i < 4
    ensures LosingNext(i)
  {
    var s, t := Step(LosingState(i), LosingEvents()[i]), LosingState(i + 1);
    if i == 2 {
      assert s.promises[0].regs == t.promises[0].regs;
    }
    assert s.promises == t.promises;
    if i == 3 {
      assert s.joins[0].results == t.joins[0].results;
      assert s.joins == t.joins;
    }
  }

  lemma Losing4()
    requires Wf(LosingState(4))
    ensures LosingNext(4)
  {
    var s, t := LosingState(4), LosingState(5);
    hide Wf;
    assert Pop(s) == s.(stack := []);
    assert s.joins[0].ids + [1] == t.joins[0].ids;
    assert s.joins[0 := t.joins[0]] == t.joins;
    assert s.promises[0].regs + [Reg(1, Store(0, 0), Pass(3))] == t.promises[0].regs;
    assert s.promises[0 := t.promises[0]] == t.promises;
  }

  lemma Losing5()
    requires Wf(LosingState(5))
    ensures LosingNext(5)
  {
    var s, t := LosingState(5), LosingState(6);
    hide Wf;
    assert Pop(s) == s.(stack := []);
    assert s.joins[0].ids + [2] == t.joins[0].ids;
    assert s.joins[0 := t.joins[0]] == t.joins;
    assert s.promises[1].regs + [Reg(2, Store(0, 1), Pass(3))] == t.promises[1].regs;
    assert s.promises[1 := t.promises[1]] == t.promises;
  }

  lemma Losing6()
    requires Wf(LosingState(6))
    ensures LosingNext(6)
  {
    hide Wf;
    assert Pop(LosingState(6)) == LosingState(7);
  }

  lemma Losing7()
    requires Wf(LosingState(7))
    ensures LosingNext(7)
  {
    var s, t := LosingState(7), LosingState(8);
    hide Wf;
    assert Calls(s.promises[0].regs, ONE) == t.stack;
    assert t.stack + [] == t.stack;
    assert s.promises[0 := Promise(Some(ONE), [], None)] == t.promises;
  }

  lemma Losing8()
    requires Wf(LosingState(8))
    ensures LosingNext(8)
  {
    var s := LosingState(8);
    hide Wf;
    assert Pop(s).stack == [Call(1, Pass(3), ONE)];
    assert Pop(s).fired == [0];
  }

  lemma Losing9()
    requires Wf(LosingState(9))
    ensures LosingNext(9)
  {
    var s, t := LosingState(9), LosingState(10);
    hide Wf;
    assert Calls(s.promises[1].regs, TWO) + s.stack == t.stack;
  }

  lemma Losing10()
    requires Wf(LosingState(10))
    ensures LosingNext(10)
  {
    var s, t := LosingState(10), LosingState(11);
    hide Wf;
    assert Pop(s).fired == t.fired && Pop(s).stack == t.stack;
    assert Calls([], TWO) + t.stack == t.stack;
  }

  lemma {:induction false} LosingStep(i: nat)
    requires i < 11
    ensures LosingNext(i)
  {
    hide Wf, LosingState, LosingEvents, Step;
    if i < 4 {
      LosingStart(i);
    } else {
      LosingStep(i - 1);
      if i == 4 {
        Losing4();
      } else if i == 5 {
        Losing5();
      } else if i == 6 {
        Losing6();
      } else if i == 7 {
        Losing7();
      } else if i == 8 {
        Losing8();
      } else if i == 9 {
        Losing9();
      } else {
        Losing10();
      }
    }
  }

  /** The reason of all need not be that of the input rejected first: here input 0 is rejected first, at the eighth
    * event, and input 1 two events later, and all takes the reason of input 1. */
  lemma FirstRejectionLoses()
    ensures IsRun(LosingStates(), LosingEvents())
    ensures StateOf(LosingStates()[8], 0) == Some(ONE) && StateOf(LosingStates()[9], 1) == None
    ensures StateOf(LosingStates()[11],
      LosingStates()[11].joins[0].target) == Some(TWO) == StateOf(LosingStates()[11], 1)
    ensures ONE != TWO && LosingStates()[11].joins[0].inputs == [0, 1]
  {
    forall i | 0 <= i < 11 ensures StepAt(LosingStates(), LosingEvents(), i) {
      LosingStep(i);
    }
    hide StepAt;
  }
}
