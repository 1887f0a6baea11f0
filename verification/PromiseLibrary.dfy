/** Promises as objects: settling one runs its callbacks in a loop, and those settle others from inside.
  * Each operation is proved to leave what running the model to its end leaves. */
module PromiseLibrary {
  import opened Blocks
  import opened Promises

  // ---------- running to the end ----------

  function Pendings(ps: seq<Promise>): nat {
    if ps == [] then 0 else (if ps[0].state.None? then 1 else 0) + Pendings(ps[1..])
  }

  /** Turns the loops of all have left. */
  function Unwired(js: seq<Join>): nat {
    if js == [] then 0
    else (if |js[0].ids| < |js[0].inputs| then |js[0].inputs| - |js[0].ids| else 0) + Unwired(js[1..])
  }

  function Weight(ts: seq<Task>): nat {
    if ts == [] then 0 else (if ts[0].Call? then 2 else 1) + Weight(ts[1..])
  }

  lemma {:induction false} PendingsUpdate(ps: seq<Promise>, p: nat, pm: Promise)
    requires p < |ps|
    ensures Pendings(ps[p := pm]) + (if ps[p].state.None? then 1
      else 0) == Pendings(ps) + if pm.state.None? then 1 else 0
  {
    if p == 0 {
      assert ps[p := pm][1..] == ps[1..];
    } else {
      assert ps[p := pm][1..] == ps[1..][p - 1 := pm];
      PendingsUpdate(ps[1..], p - 1, pm);
    }
  }

  lemma {:induction false} UnwiredUpdate(js: seq<Join>, j: nat, jn: Join)
    requires j < |js| && jn.inputs == js[j].inputs && js[j].ids <= jn.ids
    ensures Unwired(js[j := jn]) <= Unwired(js)
    ensures jn.ids == js[j].ids ==> Unwired(js[j := jn]) == Unwired(js)
    ensures |js[j].ids| < |jn.ids| <= |jn.inputs| ==> Unwired(js[j := jn]) < Unwired(js)
  {
    if j == 0 {
      assert js[j := jn][1..] == js[1..];
    } else {
      assert js[j := jn][1..] == js[1..][j - 1 := jn];
      UnwiredUpdate(js[1..], j - 1, jn);
    }
  }

  /** s' is nearer to its end than s. */
  predicate Nearer(s: Loop, s': Loop) {
    || Pendings(s'.promises) < Pendings(s.promises)
    || (Pendings(s'.promises) == Pendings(s.promises) && Unwired(s'.joins) < Unwired(s.joins))
    || (Pendings(s'.promises) == Pendings(s.promises) && Unwired(s'.joins) == Unwired(s.joins) &&
      Weight(s'.stack) < Weight(s.stack))
  }

  lemma SettleNearer(s: Loop, p: nat, r: Result)
    requires Wf(s) && p < |s.promises|
    ensures s.promises[p].state.Some? ==> Settle(s, p, r) == s
    ensures s.promises[p].state.None? ==> Pendings(Settle(s, p, r).promises) < Pendings(s.promises)
  {
    hide Wf, Pendings;
    if s.promises[p].state.None? {
      PendingsUpdate(s.promises, p, s.promises[p].(state := Some(r), regs := []));
    }
  }

  lemma WireNearer(s: Loop, j: nat)
    requires Wf(s) && j < |s.joins|
    ensures WireNext(s, j) == s ||
      (Pendings(WireNext(s, j).promises) == Pendings(s.promises) && Unwired(WireNext(s, j).joins) < Unwired(s.joins))
  {
    var jn := s.joins[j];
    if |jn.ids| < |jn.inputs| {
      hide Pendings, Unwired;
      var p, g := jn.inputs[|jn.ids|], Reg(s.next, Store(j, |jn.ids|), Pass(jn.target));
      assert p in jn.inputs;
      UnwiredUpdate(s.joins, j, jn.(ids := jn.ids + [s.next]));
      PendingsUpdate(s.promises, p, s.promises[p].(regs := s.promises[p].regs + [g]));
    }
  }

  lemma StoreNearer(s: Loop, j: nat, i: nat, v: Value)
    requires Wf(s) && j < |s.joins| && i < |s.joins[j].inputs|
    ensures var s' := StoreValue(s, j, i, v);
      || Pendings(s'.promises) < Pendings(s.promises)
      || (s'.promises == s.promises && s'.stack == s.stack && Unwired(s'.joins) == Unwired(s.joins))
  {
    hide Pendings, Unwired, Settle;
    var s1 := Fill(s, j, i, v);
    UnwiredUpdate(s.joins, j, s1.joins[j]);
    if s1.joins[j].count == 0 {
      SettleNearer(s1, s1.joins[j].target, Fulfilled(Values(Unwrap(s1.joins[j].results))));
    }
  }

  lemma RunNearer(s: Loop)
    requires Wf(s) && s.stack != []
    ensures Nearer(s, Run(s))
  {
    hide Wf, Settle, WireNext, StoreValue, Pendings, Unwired;
    var s1 := Pop(s);
    match s.stack[0] {
      case Finish(p, r) => SettleNearer(s1, p, Bare(r));
      case Wire(j) => WireNearer(s1, j);
      case Call(_, Handler(p), r) =>
      case Call(_, Pass(p), r) => SettleNearer(s1, p, r);
      case Call(_, Store(j, i), r) =>
        if r.Fulfilled? {
          StoreNearer(s1, j, i, r.value);
        }
    }
  }

  /** Run what is on the stack, with no further action of the client. */
  function Drain(s: Loop): (s': Loop)
    requires Wf(s)
    ensures Wf(s') && s'.stack == []
    ensures Pendings(s'.promises) <= Pendings(s.promises)
    decreases Pendings(s.promises), Unwired(s.joins), Weight(s.stack)
  {
    if s.stack == [] then s
    else
      RunNearer(s);
      Drain(Run(s))
  }

  /** Running to the end stays within the reachable states, so what holds of all once nothing is left to run holds
    * after it. */
  lemma {:induction false} DrainInv(s: Loop)
    requires Inv(s)
    ensures Inv(Drain(s))
    decreases Pendings(s.promises), Unwired(s.joins), Weight(s.stack)
  {
    if s.stack != [] {
      RunNearer(s);
      hide Inv, Run, Pendings, Unwired, Weight;
      RunInv(s);
      assert Wf(Run(s));
      DrainInv(Run(s));
    }
  }

  /** What lies deeper on the stack does not matter to a step. */
  lemma RunBelow(s: Loop, below: seq<Task>)
    requires Wf(s) && s.stack != [] && Wf(s.(stack := s.stack + below))
    ensures Run(s.(stack := s.stack + below)) == Run(s).(stack := Run(s).stack + below)
  {
    var s', s1 := s.(stack := s.stack + below), Pop(s);
    assert s'.stack[1..] == s.stack[1..] + below;
    hide Wf;
    match s.stack[0] {
      case Finish(p, r) => SettleBelow(s1, p, Bare(r), below);
      case Wire(j) => WireBelow(s1, j, below);
      case Call(_, Handler(p), r) =>
      case Call(_, Pass(p), r) => SettleBelow(s1, p, r, below);
      case Call(_, Store(j, i), r) =>
        if r.Fulfilled? {
          var s2 := Fill(s1, j, i, r.value);
          if s2.joins[j].count == 0 {
            FillWf(s1, j, i, r.value, below);
            SettleBelow(s2, s2.joins[j].target, Fulfilled(Values(Unwrap(s2.joins[j].results))), below);
          }
        }
    }
  }

  lemma FillWf(s: Loop, j: nat, i: nat, v: Value, below: seq<Task>)
    requires Wf(s) && Wf(s.(stack := s.stack + below)) && j < |s.joins| && i < |s.joins[j].inputs|
    ensures Wf(Fill(s, j, i, v).(stack := s.stack + below))
    ensures Fill(s, j, i, v).joins[j].target < |s.promises|
  {
    assert Fill(s.(stack := s.stack + below), j, i, v) == Fill(s, j, i, v).(stack := s.stack + below);
  }

  lemma SettleBelow(s: Loop, p: nat, r: Result, below: seq<Task>)
    requires Wf(s) && p < |s.promises| && Wf(s.(stack := s.stack + below))
    ensures Settle(s.(stack := s.stack + below), p, r) == Settle(s, p, r).(stack := Settle(s, p, r).stack + below)
  {
    hide Wf, Calls;
    var calls := Calls(s.promises[p].regs, r);
    assert calls + (s.stack + below) == (calls + s.stack) + below;
  }

  lemma WireBelow(s: Loop, j: nat, below: seq<Task>)
    requires Wf(s) && j < |s.joins| && Wf(s.(stack := s.stack + below))
    ensures WireNext(s.(stack := s.stack + below), j) == WireNext(s, j).(stack := WireNext(s, j).stack + below)
  {
    var jn := s.joins[j];
    if |jn.ids| < |jn.inputs| {
      assert jn.inputs[|jn.ids|] in jn.inputs;
      hide Wf;
      assert [Wire(j)] + (s.stack + below) == ([Wire(j)] + s.stack) + below;
    }
  }

  lemma WfStack(s: Loop, a: seq<Task>, b: seq<Task>)
    requires Wf(s.(stack := a + b))
    ensures Wf(s.(stack := a)) && Wf(s.(stack := b))
  {
    assert forall t | t in a || t in b :: t in a + b;
  }

  /** Draining a stack is draining its upper part, then its lower part. */
  lemma {:induction false} DrainSplit(s: Loop, below: seq<Task>)
    requires Wf(s) && Wf(s.(stack := s.stack + below))
    ensures Wf(Drain(s).(stack := below))
    ensures Drain(s.(stack := s.stack + below)) == Drain(Drain(s).(stack := below))
    decreases Pendings(s.promises), Unwired(s.joins), Weight(s.stack)
  {
    var s' := s.(stack := s.stack + below);
    if s.stack == [] {
      assert s'.stack == below;
    } else {
      RunBelow(s, below);
      RunNearer(s);
      hide Run, Wf, Pendings, Unwired, Weight;
      DrainSplit(Run(s), below);
    }
  }

  /** One callback from the front. */
  lemma DrainFirst(s: Loop, calls: seq<Task>)
    requires calls != [] && Wf(s.(stack := calls))
    ensures Wf(s.(stack := [calls[0]]))
    ensures Wf(Drain(s.(stack := [calls[0]])).(stack := calls[1..]))
    ensures Drain(s.(stack := calls)) == Drain(Drain(s.(stack := [calls[0]])).(stack := calls[1..]))
  {
    assert calls == [calls[0]] + calls[1..];
    WfStack(s, [calls[0]], calls[1..]);
    hide Drain, Wf;
    DrainSplit(s.(stack := [calls[0]]), calls[1..]);
  }

  // ---------- the objects ----------

  lemma DrainOne(s: Loop, k: Task)
    requires Wf(s.(stack := [k])) && s.stack == []
    ensures Wf(s) && TaskWf(|s.promises|, s.joins, k)
    ensures Pop(s.(stack := [k])) == if k.Call? then s.(fired := s.fired + [k.id]) else s
    ensures Drain(s.(stack := [k])) == Drain(Run(s.(stack := [k])))
  {
    WfStack(s, [k], []);
    assert k in [k];
  }

  /** The promises of one replica and what the closures of all share, held together in two tables where the
    * program links them with shared pointers.  Handlers are run as functions that touch no promise themselves. */
  class Library {
    var promises: seq<Promise>
    var joins: seq<Join>
    var next: nat
    var fired: seq<nat>

    ghost function Value(): Loop
      reads this
    {
      Loop(promises, joins, next, [], fired)
    }

    constructor ()
      ensures Value() == EMPTY
    {
      promises, joins, next, fired := [], [], 0, [];
    }

    /** resolve and reject, with all the callbacks this sets off. */
    method SettleOne(p: nat, r: Result)
      requires Wf(Value()) && p < |promises|
      modifies this
      ensures Value() == Drain(Settle(old(Value()), p, r))
      decreases Pendings(promises), 0
    {
      hide Drain, Wf, Pendings, Calls;
      ghost var s0 := Value();
      if promises[p].state.Some? {
        DrainNothing(s0);
        return;
      }
      var regs := promises[p].regs;
      ghost var calls := Calls(regs, r);
      SettleNearer(s0, p, r);
      assert calls + [] == calls;
      promises := promises[p := promises[p].(state := Some(r), regs := [])];
      var k := 0;
      while k < |regs|
        invariant k <= |regs|
        invariant Wf(Value().(stack := calls[k..]))
        invariant Drain(Value().(stack := calls[k..])) == Drain(Settle(s0, p, r))
        invariant Pendings(promises) < Pendings(s0.promises)
      {
        DrainFirst(Value(), calls[k..]);
        RunCallback(regs[k].id, regs[k].For(r), r);
        k := k + 1;
      }
      assert calls[k..] == [];
      DrainNothing(Value());
    }

    /** One callback. */
    method RunCallback(id: nat, a: Action, r: Result)
      requires Wf(Value().(stack := [Call(id, a, r)]))
      modifies this
      ensures Value() == Drain(old(Value()).(stack := [Call(id, a, r)]))
      decreases Pendings(promises), 1
    {
      hide Drain, Wf, Pendings, Pop, Settle;
      ghost var s0 := Value();
      DrainOne(s0, Call(id, a, r));
      fired := fired + [id];
      match a {
        case Handler(t) =>
          assert Value().(stack := [Finish(t, r)]) == Push(Value(), Finish(t, r));
          DrainOne(Value(), Finish(t, r));
          SettleOne(t, Bare(r));
        case Pass(t) =>
          SettleOne(t, r);
        case Store(j, i) =>
          if r.Fulfilled? {
            var jn := joins[j];
            StoreWf(s0.(fired := s0.fired + [id]), j, i, r.value);
            jn := jn.(results := jn.results[i := Some(r.value)], count := jn.count - 1);
            joins := joins[j := jn];
            if jn.count == 0 {
              SettleOne(jn.target, Fulfilled(Values(Unwrap(jn.results))));
            } else {
              DrainNothing(Value());
            }
          } else {
            DrainNothing(Value());
          }
      }
    }

    /** A new promise. */
    method NewPromise(owner: Option<nat>) returns (p: nat)
      requires Wf(Value())
      modifies this`promises
      ensures p == old(|promises|) && Value() == Added(old(Value()), FRESH.(owner := owner))
    {
      p := |promises|;
      promises := promises + [FRESH.(owner := owner)];
    }

    /** Wait for p, or run the callback at once. */
    method Subscribe(p: nat, g: Reg)
      requires Wf(Value()) && p < |promises|
      requires ActionWf(|promises|, joins, g.onFulfilled) && ActionWf(|promises|, joins, g.onRejected)
      modifies this
      ensures Value() == Drain(Register(old(Value()), p, g))
    {
      hide Drain, Wf;
      match promises[p].state {
        case None =>
          DrainNothing(Register(Value(), p, g));
          promises := promises[p := promises[p].(regs := promises[p].regs + [g])];
        case Some(r) =>
          assert Register(Value(), p, g) == Value().(stack := [Call(g.id, g.For(r), r)]);
          RunCallback(g.id, g.For(r), r);
      }
    }

    /** then and fail. */
    method ThenDo(p: nat, given: Given) returns (npm: nat)
      requires Wf(Value()) && p < |promises|
      modifies this
      ensures npm == old(|promises|) && Value() == Drain(ThenOn(old(Value()), p, given))
    {
      hide Drain;
      ghost var s0 := Value();
      npm := NewPromise(None);
      var g := Reg(next, if given.OnRejected? then Pass(npm) else Handler(npm),
                   if given.OnFulfilled? then Pass(npm) else Handler(npm));
      assert g == GivenReg(s0, npm, given);
      next := next + 1;
      Subscribe(p, g);
    }

    /** all; it throws on an empty list. */
    method AllDo(inputs: seq<nat>) returns (target: Option<nat>)
      requires Wf(Value()) && forall p | p in inputs :: p < |promises|
      modifies this
      ensures inputs == [] ==> target == None && Value() == old(Value())
      ensures inputs != [] ==> target == Some(old(|promises|)) && Value() == Drain(AllOf(old(Value()), inputs))
    {
      if inputs == [] {
        return None;
      }
      hide Drain, Wf;
      ghost var s0 := Value();
      var t := NewPromise(Some(|joins|));
      var j := |joins|;
      joins := joins + [Join(inputs, t, [], |inputs|, seq(|inputs|, _ => None))];
      assert [Wire(j)] + [] == [Wire(j)];
      assert AllOf(s0, inputs) == Value().(stack := [Wire(j)]);
      WfStack(Value(), [], [Wire(j)]);
      SubscribeToAll(j);
      return Some(t);
    }

    /** The loop of all. */
    method SubscribeToAll(j: nat)
      requires Wf(Value()) && j < |joins|
      modifies this
      ensures Wf(old(Value()).(stack := [Wire(j)])) && Value() == Drain(old(Value()).(stack := [Wire(j)]))
    {
      hide Drain, Wf;
      ghost var s0 := Value();
      WireWf(s0, j);
      while |joins[j].ids| < |joins[j].inputs|
        invariant Wf(Value()) && j < |joins| && joins[j].inputs == s0.joins[j].inputs
        invariant |joins[j].ids| <= |joins[j].inputs|
        invariant Wf(Value().(stack := [Wire(j)]))
        invariant Drain(Value().(stack := [Wire(j)])) == Drain(s0.(stack := [Wire(j)]))
        decreases |s0.joins[j].inputs| - |joins[j].ids|
      {
        Turn(j);
      }
      WireEnds(Value(), j);
    }

    method Turn(j: nat)
      requires Wf(Value()) && j < |joins| && |joins[j].ids| < |joins[j].inputs|
      modifies this
      ensures Wf(Value()) && j < |joins| && joins[j].inputs == old(joins[j].inputs)
      ensures |joins[j].ids| == old(|joins[j].ids|) + 1
      ensures Wf(old(Value()).(stack := [Wire(j)])) && Wf(Value().(stack := [Wire(j)]))
      ensures Drain(Value().(stack := [Wire(j)])) == Drain(old(Value()).(stack := [Wire(j)]))
    {
      hide Drain, Wf, Register;
      ghost var s0 := Value();
      var jn := joins[j];
      var idx := |jn.ids|;
      TurnRegOk(s0, j);
      var g := Reg(next, Store(j, idx), Pass(jn.target));
      joins := joins[j := jn.(ids := jn.ids + [next])];
      next := next + 1;
      Subscribe(jn.inputs[idx], g);
      WireTurn(s0, j, Value());
    }
  }

  lemma WireWf(s: Loop, j: nat)
    requires Wf(s) && s.stack == [] && j < |s.joins|
    ensures Wf(s.(stack := [Wire(j)])) && |s.joins[j].ids| <= |s.joins[j].inputs|
  {
  }

  lemma DrainNothing(s: Loop)
    requires Wf(s) && s.stack == []
    ensures Drain(s) == s
  {
  }

  lemma StoreWf(s: Loop, j: nat, i: nat, v: Value)
    requires Wf(s) && j < |s.joins| && i < |s.joins[j].inputs|
    ensures |s.joins[j].results| == |s.joins[j].inputs|
    ensures Wf(Fill(s, j, i, v)) && Fill(s, j, i, v).joins[j].target < |s.promises|
  {
  }

  predicate NoLoops(ts: seq<Task>) {
    forall t | t in ts :: !t.Wire?
  }

  predicate SameLoops(s: Loop, s': Loop) {
    && |s'.joins| == |s.joins| && |s'.promises| >= |s.promises|
    && forall j {:trigger s'.joins[j]} | 0 <= j < |s.joins| ::
      s'.joins[j].inputs == s.joins[j].inputs && s'.joins[j].target == s.joins[j].target &&
        s'.joins[j].ids == s.joins[j].ids
  }

  lemma RunKeepsLoops(s: Loop)
    requires Wf(s) && s.stack != [] && NoLoops(s.stack)
    ensures NoLoops(Run(s).stack) && SameLoops(s, Run(s))
  {
    assert s.stack[0] in s.stack;
    var s1 := Pop(s);
    hide Wf;
    match s.stack[0] {
      case Call(_, Store(j, i), r) => assert j < |s1.joins|;
      case _ =>
    }
  }

  /** Only the loop of all makes its registrations. */
  lemma {:induction false} DrainKeepsLoops(s: Loop)
    requires Wf(s) && NoLoops(s.stack)
    ensures SameLoops(s, Drain(s))
    decreases Pendings(s.promises), Unwired(s.joins), Weight(s.stack)
  {
    if s.stack != [] {
      RunNearer(s);
      hide Run, Wf, Pendings, Unwired, Weight;
      RunKeepsLoops(s);
      DrainKeepsLoops(Run(s));
    }
  }

  /** One turn of the loop of all without what it leaves on the stack. */
  function Turned(s: Loop, j: nat): (s1: Loop)
    requires Wf(s) && j < |s.joins| && |s.joins[j].ids| < |s.joins[j].inputs|
    ensures Wf(s1)
  {
    s.(joins := s.joins[j := s.joins[j].(ids := s.joins[j].ids + [s.next])], next := s.next + 1)
  }

  function TurnReg(s: Loop, j: nat): Reg
    requires j < |s.joins|
  {
    Reg(s.next, Store(j, |s.joins[j].ids|), Pass(s.joins[j].target))
  }

  lemma TurnRegOk(s: Loop, j: nat)
    requires Wf(s) && j < |s.joins| && |s.joins[j].ids| < |s.joins[j].inputs|
    ensures var s1, g, p := Turned(s, j), TurnReg(s, j), s.joins[j].inputs[|s.joins[j].ids|];
      && p < |s1.promises|
      && ActionWf(|s1.promises|, s1.joins, g.onFulfilled) && ActionWf(|s1.promises|, s1.joins, g.onRejected)
  {
    assert s.joins[j].inputs[|s.joins[j].ids|] in s.joins[j].inputs;
  }

  /** One turn of the loop of all, run to its end, leaves the rest of the loop. */
  lemma WireTurn(s: Loop, j: nat, s2: Loop)
    requires Wf(s) && s.stack == [] && j < |s.joins| && |s.joins[j].ids| < |s.joins[j].inputs|
    requires var s1, g, p := Turned(s, j), TurnReg(s, j), s.joins[j].inputs[|s.joins[j].ids|];
      && p < |s1.promises|
      && ActionWf(|s1.promises|, s1.joins, g.onFulfilled) && ActionWf(|s1.promises|, s1.joins, g.onRejected)
      && s2 == Drain(Register(s1, p, g))
    ensures j < |s2.joins|
    ensures s2.joins[j].inputs == s.joins[j].inputs && s2.joins[j].target == s.joins[j].target
    ensures s2.joins[j].ids == s.joins[j].ids + [s.next]
    ensures Wf(s.(stack := [Wire(j)])) && Wf(s2.(stack := [Wire(j)]))
    ensures Drain(s.(stack := [Wire(j)])) == Drain(s2.(stack := [Wire(j)]))
  {
    var jn := s.joins[j];
    var p, g := jn.inputs[|jn.ids|], TurnReg(s, j);
    var r := Register(Turned(s, j), p, g);
    assert NoLoops(r.stack);
    DrainKeepsLoops(r);
    assert Wf(s.(stack := [Wire(j)]));
    DrainOne(s, Wire(j));
    assert Run(s.(stack := [Wire(j)])) == r.(stack := r.stack + [Wire(j)]) by {
      hide Wf;
      assert [] + [Wire(j)] == [Wire(j)];
    }
    hide Drain, Register, Turned, Run;
    DrainSplit(r, [Wire(j)]);
  }

  lemma WireEnds(s: Loop, j: nat)
    requires Wf(s) && s.stack == [] && j < |s.joins| && |s.joins[j].ids| == |s.joins[j].inputs|
    ensures Wf(s.(stack := [Wire(j)])) && Drain(s.(stack := [Wire(j)])) == s
  {
    assert Wf(s.(stack := [Wire(j)]));
    DrainOne(s, Wire(j));
  }
}
