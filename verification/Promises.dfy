/** Promises, and the combinator `all` that orders block delivery.
  *
  * Settling a promise calls its callbacks one after another, and each of them may settle further
  * promises before the next one runs.  The model keeps what is still to be run on a stack, so that
  * the client of the library can act at every point between two callbacks, also from inside one. */
module Promises {
  import opened Blocks

  datatype Value = Nothing | Opaque(n: nat) | Values(vs: seq<Value>)

  datatype Result = Fulfilled(value: Value) | Rejected(reason: Value)

  /** What a callback does.  Handler: run a function of the client's, then settle npm the same way without
    * a value.  Pass: settle npm the same way with the same value.  Store: put the value into slot idx of a join. */
  datatype Action = Handler(npm: nat) | Pass(npm: nat) | Store(join: nat, idx: nat)

  /** One registration: the pair of callbacks added by one call of then, and its number. */
  datatype Reg = Reg(id: nat, onFulfilled: Action, onRejected: Action) {
    function For(r: Result): Action {
      if r.Fulfilled? then onFulfilled else onRejected
    }
  }

  /** state is None while the promise is pending; owner is the join that made it, if one did. */
  datatype Promise = Promise(state: Option<Result>, regs: seq<Reg>, owner: Option<nat>)

  /** The state of one call of all: count and results are shared by its callbacks; ids are the
    * registrations made so far, one per input, in order. */
  datatype Join = Join(inputs: seq<nat>, target: nat, ids: seq<nat>, count: int, results: seq<Option<Value>>)

  /** A callback about to run; the end of a client's function; the next turn of the loop in all. */
  datatype Task = Call(id: nat, action: Action, result: Result) | Finish(npm: nat, result: Result) | Wire(join: nat)

  datatype Loop = Loop(promises: seq<Promise>, joins: seq<Join>, next: nat, stack: seq<Task>, fired: seq<nat>)

  // ---------- well-formedness ----------

  predicate ActionWf(np: nat, js: seq<Join>, a: Action) {
    match a
    case Handler(t) => t < np
    case Pass(t) => t < np
    case Store(j, i) => j < |js| && i < |js[j].inputs|
  }

  predicate TaskWf(np: nat, js: seq<Join>, t: Task) {
    match t
    case Call(_, a, _) => ActionWf(np, js, a)
    case Finish(t, _) => t < np
    case Wire(j) => j < |js|
  }

  predicate JoinWf(np: nat, j: Join) {
    && |j.results| == |j.inputs| && |j.ids| <= |j.inputs|
    && j.target < np && forall p | p in j.inputs :: p < np
  }

  predicate RegsWf(np: nat, js: seq<Join>, regs: seq<Reg>) {
    forall g | g in regs :: ActionWf(np, js, g.onFulfilled) && ActionWf(np, js, g.onRejected)
  }

  /** Every promise and join named anywhere exists. */
  predicate Wf(s: Loop) {
    && (forall p {:trigger s.promises[p]} | 0 <= p < |s.promises| :: RegsWf(|s.promises|, s.joins, s.promises[p].regs))
    && (forall t | t in s.stack :: TaskWf(|s.promises|, s.joins, t))
    && (forall j {:trigger s.joins[j]} | 0 <= j < |s.joins| :: JoinWf(|s.promises|, s.joins[j]))
  }

  // ---------- what the library does ----------

  /** The callbacks called when a promise is settled, in the order of their registration. */
  function Calls(regs: seq<Reg>, r: Result): (ts: seq<Task>)
    ensures |ts| == |regs|
    ensures forall i | 0 <= i < |regs| :: ts[i] == Call(regs[i].id, regs[i].For(r), r)
  {
    seq(|regs|, i requires 0 <= i < |regs| => Call(regs[i].id, regs[i].For(r), r))
  }

  /** resolve and reject: only a pending promise is settled. */
  function Settle(s: Loop, p: nat, r: Result): (s': Loop)
    requires Wf(s) && p < |s.promises|
    ensures Wf(s')
  {
    if s.promises[p].state.Some? then s
    else s.(promises := s.promises[p := s.promises[p].(state := Some(r), regs := [])],
            stack := Calls(s.promises[p].regs, r) + s.stack)
  }

  /** Settling the same way as r, but without a value. */
  function Bare(r: Result): Result {
    if r.Fulfilled? then Fulfilled(Nothing) else Rejected(Nothing)
  }

  function Unwrap(rs: seq<Option<Value>>): seq<Value> {
    seq(|rs|, i requires 0 <= i < |rs| => if rs[i].Some? then rs[i].value else Nothing)
  }

  /** The fulfilment callback that all registers with its input i. */
  function Fill(s: Loop, j: nat, i: nat, v: Value): (s': Loop)
    requires Wf(s) && j < |s.joins| && i < |s.joins[j].inputs|
    ensures Wf(s')
  {
    var jn := s.joins[j];
    s.(joins := s.joins[j := jn.(results := jn.results[i := Some(v)], count := jn.count - 1)])
  }

  /** A call of then on p: wait, or run at once. */
  function Register(s: Loop, p: nat, g: Reg): (s': Loop)
    requires Wf(s) && p < |s.promises|
    requires ActionWf(|s.promises|, s.joins, g.onFulfilled) && ActionWf(|s.promises|, s.joins, g.onRejected)
    ensures Wf(s')
  {
    match s.promises[p].state
    case None => s.(promises := s.promises[p := s.promises[p].(regs := s.promises[p].regs + [g])])
    case Some(r) => s.(stack := [Call(g.id, g.For(r), r)] + s.stack)
  }

  /** The next turn of the loop of all. */
  function WireNext(s: Loop, j: nat): (s': Loop)
    requires Wf(s) && j < |s.joins|
    ensures Wf(s')
  {
    var jn := s.joins[j];
    var i := |jn.ids|;
    if i == |jn.inputs| then s
    else
      var s1 := s.(joins := s.joins[j := jn.(ids := jn.ids + [s.next])], next := s.next + 1,
        stack := [Wire(j)] + s.stack);
      assert jn.inputs[i] in jn.inputs;
      Register(s1, jn.inputs[i], Reg(s.next, Store(j, i), Pass(jn.target)))
  }

  /** Take the top off the stack; a callback taken off has fired. */
  function Pop(s: Loop): (s': Loop)
    requires Wf(s) && s.stack != []
    ensures Wf(s') && TaskWf(|s'.promises|, s'.joins, s.stack[0])
    ensures s'.promises == s.promises && s'.joins == s.joins
  {
    assert s.stack[0] in s.stack;
    s.(stack := s.stack[1..], fired := if s.stack[0].Call? then s.fired + [s.stack[0].id] else s.fired)
  }

  function Push(s: Loop, t: Task): (s': Loop)
    requires Wf(s) && TaskWf(|s.promises|, s.joins, t)
    ensures Wf(s')
  {
    s.(stack := [t] + s.stack)
  }

  /** The fulfilment callback of all: fill the slot, and resolve with the values when none is missing. */
  function StoreValue(s: Loop, j: nat, i: nat, v: Value): (s': Loop)
    requires Wf(s) && j < |s.joins| && i < |s.joins[j].inputs|
    ensures Wf(s')
  {
    var s1 := Fill(s, j, i, v);
    var jn := s1.joins[j];
    if jn.count == 0 then Settle(s1, jn.target, Fulfilled(Values(Unwrap(jn.results)))) else s1
  }

  /** Run what is on top of the stack. */
  function Run(s: Loop): (s': Loop)
    requires Wf(s) && s.stack != []
    ensures Wf(s')
  {
    var s1 := Pop(s);
    match s.stack[0]
    case Finish(t, r) => Settle(s1, t, Bare(r))
    case Wire(j) => WireNext(s1, j)
    case Call(_, Handler(t), r) => Push(s1, Finish(t, r))
    case Call(_, Pass(t), r) => Settle(s1, t, r)
    case Call(_, Store(j, i), r) => if r.Fulfilled? then StoreValue(s1, j, i, r.value) else s1
  }

  // ---------- what the client does ----------

  /** Which handlers a call of then, or of fail, is given. */
  datatype Given = OnFulfilled | OnRejected | Both

  datatype Event =
    | New
    | Then(p: nat, given: Given)
    | All(inputs: seq<nat>)
    | SettleIt(p: nat, r: Result)
    | Continue

  /** The client names promises it has.  What all returns is settled by nobody else, and all of nothing throws. */
  predicate Enabled(s: Loop, e: Event) {
    && Wf(s)
    && match e
       case New => true
       case Then(p, _) => p < |s.promises|
       case All(inputs) => inputs != [] && forall p | p in inputs :: p < |s.promises|
       case SettleIt(p, _) => p < |s.promises| && s.promises[p].owner.None?
       case Continue => s.stack != []
  }

  const FRESH: Promise := Promise(None, [], None)

  function Added(s: Loop, pm: Promise): (s': Loop)
    requires Wf(s) && pm.regs == []
    ensures Wf(s')
  {
    s.(promises := s.promises + [pm])
  }

  function GivenReg(s: Loop, npm: nat, given: Given): Reg {
    Reg(s.next,
        if given.OnRejected? then Pass(npm) else Handler(npm),
        if given.OnFulfilled? then Pass(npm) else Handler(npm))
  }

  function ThenOn(s: Loop, p: nat, given: Given): (s': Loop)
    requires Wf(s) && p < |s.promises|
    ensures Wf(s')
  {
    var npm := |s.promises|;
    Register(Added(s, FRESH).(next := s.next + 1), p, GivenReg(s, npm, given))
  }

  function AllOf(s: Loop, inputs: seq<nat>): (s': Loop)
    requires Wf(s) && forall p | p in inputs :: p < |s.promises|
    ensures Wf(s')
  {
    var target, j := |s.promises|, |s.joins|;
    var s1 := Added(s, FRESH.(owner := Some(j)));
    s1.(joins := s.joins + [Join(inputs, target, [], |inputs|, seq(|inputs|, _ => None))],
        stack := [Wire(j)] + s.stack)
  }

  function Step(s: Loop, e: Event): (s': Loop)
    requires Enabled(s, e)
    ensures Wf(s')
  {
    match e
    case New => Added(s, FRESH)
    case Then(p, given) => ThenOn(s, p, given)
    case All(inputs) => AllOf(s, inputs)
    case SettleIt(p, r) => Settle(s, p, r)
    case Continue => Run(s)
  }

  const EMPTY: Loop := Loop([], [], 0, [], [])

  // ---------- where the registrations are ----------

  /** How often registration t is among regs, on any promise, about to run. */
  function AmongRegs(regs: seq<Reg>, t: nat): nat {
    if regs == [] then 0 else (if regs[0].id == t then 1 else 0) + AmongRegs(regs[1..], t)
  }

  function Waiting(ps: seq<Promise>, t: nat): nat {
    if ps == [] then 0 else AmongRegs(ps[0].regs, t) + Waiting(ps[1..], t)
  }

  function IsCall(k: Task, t: nat): nat {
    if k.Call? && k.id == t then 1 else 0
  }

  function Stacked(ts: seq<Task>, t: nat): nat {
    if ts == [] then 0 else IsCall(ts[0], t) + Stacked(ts[1..], t)
  }

  function Places(s: Loop, t: nat): nat {
    Waiting(s.promises, t) + Stacked(s.stack, t) + multiset(s.fired)[t]
  }

  /** Every registration made is in exactly one place, once: waiting, about to run, or fired. */
  ghost predicate OnePlace(s: Loop) {
    forall t: nat :: Places(s, t) == if t < s.next then 1 else 0
  }

  lemma {:induction false} AmongSnoc(regs: seq<Reg>, g: Reg, t: nat)
    ensures AmongRegs(regs + [g], t) == AmongRegs(regs, t) + if g.id == t then 1 else 0
  {
    if regs != [] {
      assert (regs + [g])[1..] == regs[1..] + [g];
      AmongSnoc(regs[1..], g, t);
    }
  }

  lemma {:induction false} WaitingSnoc(ps: seq<Promise>, pm: Promise, t: nat)
    ensures Waiting(ps + [pm], t) == Waiting(ps, t) + AmongRegs(pm.regs, t)
  {
    if ps != [] {
      assert (ps + [pm])[1..] == ps[1..] + [pm];
      WaitingSnoc(ps[1..], pm, t);
    }
  }

  lemma {:induction false} WaitingUpdate(ps: seq<Promise>, p: nat, pm: Promise, t: nat)
    requires p < |ps|
    ensures Waiting(ps[p := pm], t) + AmongRegs(ps[p].regs, t) == Waiting(ps, t) + AmongRegs(pm.regs, t)
  {
    if p == 0 {
      assert ps[p := pm][1..] == ps[1..];
    } else {
      assert ps[p := pm][1..] == ps[1..][p - 1 := pm];
      WaitingUpdate(ps[1..], p - 1, pm, t);
    }
  }

  lemma {:induction false} CallsStacked(regs: seq<Reg>, r: Result, rest: seq<Task>, t: nat)
    ensures Stacked(Calls(regs, r) + rest, t) == AmongRegs(regs, t) + Stacked(rest, t)
  {
    if regs == [] {
      assert Calls(regs, r) + rest == rest;
    } else {
      assert (Calls(regs, r) + rest)[1..] == Calls(regs[1..], r) + rest;
      CallsStacked(regs[1..], r, rest, t);
    }
  }

  lemma PushStacked(k: Task, rest: seq<Task>, t: nat)
    ensures Stacked([k] + rest, t) == IsCall(k, t) + Stacked(rest, t)
  {
    assert ([k] + rest)[1..] == rest;
  }

  lemma SettlePlaces(s: Loop, p: nat, r: Result, t: nat)
    requires Wf(s) && p < |s.promises|
    ensures Places(Settle(s, p, r), t) == Places(s, t) && Settle(s, p, r).next == s.next
  {
    hide Wf, Waiting, Stacked, Calls;
    if s.promises[p].state.None? {
      WaitingUpdate(s.promises, p, s.promises[p].(state := Some(r), regs := []), t);
      CallsStacked(s.promises[p].regs, r, s.stack, t);
    }
  }

  lemma RegisterPlaces(s: Loop, p: nat, g: Reg, t: nat)
    requires Wf(s) && p < |s.promises|
    requires ActionWf(|s.promises|, s.joins, g.onFulfilled) && ActionWf(|s.promises|, s.joins, g.onRejected)
    ensures Places(Register(s, p, g), t) == Places(s, t) + (if g.id == t then 1 else 0) &&
      Register(s, p, g).next == s.next
  {
    hide Wf, Waiting, AmongRegs, Stacked, Reg.For;
    match s.promises[p].state {
      case None =>
        var pm := s.promises[p].(regs := s.promises[p].regs + [g]);
        WaitingUpdate(s.promises, p, pm, t);
        AmongSnoc(s.promises[p].regs, g, t);
      case Some(r) =>
        PushStacked(Call(g.id, g.For(r), r), s.stack, t);
    }
  }

  lemma PopPlaces(s: Loop, t: nat)
    requires Wf(s) && s.stack != []
    ensures Places(Pop(s), t) == Places(s, t) && Pop(s).next == s.next
  {
    hide Wf, Waiting;
  }

  /** The registration made by the next turn of all, if one is. */
  predicate MakesNext(s: Loop, s': Loop, t: nat) {
    && s.next <= s'.next <= s.next + 1
    && Places(s', t) == Places(s, t) + if s.next < s'.next && t == s.next then 1 else 0
  }

  lemma WirePlaces(s: Loop, j: nat, t: nat)
    requires Wf(s) && j < |s.joins|
    ensures MakesNext(s, WireNext(s, j), t)
  {
    hide Waiting, Stacked, Register;
    var jn := s.joins[j];
    if |jn.ids| < |jn.inputs| {
      var s1 := s.(joins := s.joins[j := jn.(ids := jn.ids + [s.next])], next := s.next + 1,
        stack := [Wire(j)] + s.stack);
      assert jn.inputs[|jn.ids|] in jn.inputs;
      PushStacked(Wire(j), s.stack, t);
      RegisterPlaces(s1, jn.inputs[|jn.ids|], Reg(s.next, Store(j, |jn.ids|), Pass(jn.target)), t);
    }
  }

  lemma StorePlaces(s: Loop, j: nat, i: nat, v: Value, t: nat)
    requires Wf(s) && j < |s.joins| && i < |s.joins[j].inputs|
    ensures Places(StoreValue(s, j, i, v), t) == Places(s, t) && StoreValue(s, j, i, v).next == s.next
  {
    hide Waiting, Stacked, Settle;
    var s1 := Fill(s, j, i, v);
    if s1.joins[j].count == 0 {
      SettlePlaces(s1, s1.joins[j].target, Fulfilled(Values(Unwrap(s1.joins[j].results))), t);
    }
  }

  lemma RunPlaces(s: Loop, t: nat)
    requires Wf(s) && s.stack != []
    ensures MakesNext(s, Run(s), t)
  {
    hide Wf, Settle, WireNext, Waiting, Stacked, Pop, StoreValue;
    var s1 := Pop(s);
    PopPlaces(s, t);
    match s.stack[0] {
      case Finish(p, r) => SettlePlaces(s1, p, Bare(r), t);
      case Wire(j) => WirePlaces(s1, j, t);
      case Call(_, Handler(p), r) => PushStacked(Finish(p, r), s1.stack, t);
      case Call(_, Pass(p), r) => SettlePlaces(s1, p, r, t);
      case Call(_, Store(j, i), r) =>
        if r.Fulfilled? {
          StorePlaces(s1, j, i, r.value, t);
        }
    }
  }

  lemma ThenPlaces(s: Loop, p: nat, given: Given, t: nat)
    requires Wf(s) && p < |s.promises|
    ensures MakesNext(s, ThenOn(s, p, given), t)
  {
    hide Waiting, Stacked, Register;
    var s1 := Added(s, FRESH).(next := s.next + 1);
    WaitingSnoc(s.promises, FRESH, t);
    RegisterPlaces(s1, p, GivenReg(s, |s.promises|, given), t);
  }

  lemma StepMakesNext(s: Loop, e: Event, t: nat)
    requires Enabled(s, e)
    ensures MakesNext(s, Step(s, e), t)
  {
    hide Wf, Settle, Run, Waiting, Stacked, ThenOn;
    match e {
      case New => WaitingSnoc(s.promises, FRESH, t);
      case Then(p, given) => ThenPlaces(s, p, given, t);
      case All(inputs) =>
        WaitingSnoc(s.promises, FRESH.(owner := Some(|s.joins|)), t);
        PushStacked(Wire(|s.joins|), s.stack, t);
      case SettleIt(p, r) => SettlePlaces(s, p, r, t);
      case Continue => RunPlaces(s, t);
    }
  }

  lemma StepPlaces(s: Loop, e: Event)
    requires Enabled(s, e) && OnePlace(s)
    ensures OnePlace(Step(s, e))
  {
    hide Step, Places, Enabled;
    forall t: nat ensures Places(Step(s, e), t) == if t < Step(s, e).next then 1 else 0 {
      StepMakesNext(s, e, t);
    }
  }

  // ---------- what only grows ----------

  /** Settled promises stay as they are settled, registrations that fired have fired, and what
    * a join was made with stays. */
  ghost predicate Evolves(s: Loop, s': Loop) {
    && |s.promises| <= |s'.promises| && |s.joins| <= |s'.joins|
    && s.fired <= s'.fired
    && (forall p {:trigger s'.promises[p]} | 0 <= p < |s.promises| ::
      && s'.promises[p].owner == s.promises[p].owner
      && (s.promises[p].state.Some? ==> s'.promises[p].state == s.promises[p].state))
    && (forall j {:trigger s'.joins[j]} | 0 <= j < |s.joins| ::
      && s'.joins[j].inputs == s.joins[j].inputs
      && s'.joins[j].target == s.joins[j].target
      && s.joins[j].ids <= s'.joins[j].ids)
  }

  lemma SettleEvolves(s: Loop, p: nat, r: Result)
    requires Wf(s) && p < |s.promises|
    ensures Evolves(s, Settle(s, p, r))
  {
    hide Wf;
  }

  lemma RegisterEvolves(s: Loop, p: nat, g: Reg)
    requires Wf(s) && p < |s.promises|
    requires ActionWf(|s.promises|, s.joins, g.onFulfilled) && ActionWf(|s.promises|, s.joins, g.onRejected)
    ensures Evolves(s, Register(s, p, g))
  {
    hide Wf;
  }

  lemma WireEvolves(s: Loop, j: nat)
    requires Wf(s) && j < |s.joins|
    ensures Evolves(s, WireNext(s, j))
  {
    var jn := s.joins[j];
    if |jn.ids| < |jn.inputs| {
      var s1 := s.(joins := s.joins[j := jn.(ids := jn.ids + [s.next])], next := s.next + 1,
        stack := [Wire(j)] + s.stack);
      assert jn.inputs[|jn.ids|] in jn.inputs;
      RegisterEvolves(s1, jn.inputs[|jn.ids|], Reg(s.next, Store(j, |jn.ids|), Pass(jn.target)));
      hide Wf, Register;
      EvolvesOn(s, s1, WireNext(s, j));
    }
  }

  lemma StoreEvolves(s: Loop, j: nat, i: nat, v: Value)
    requires Wf(s) && j < |s.joins| && i < |s.joins[j].inputs|
    ensures Evolves(s, StoreValue(s, j, i, v))
  {
    var s1 := Fill(s, j, i, v);
    hide Settle;
    assert Evolves(s, s1);
    if s1.joins[j].count == 0 {
      SettleEvolves(s1, s1.joins[j].target, Fulfilled(Values(Unwrap(s1.joins[j].results))));
      hide Wf;
      EvolvesOn(s, s1, StoreValue(s, j, i, v));
    }
  }

  lemma RunEvolves(s: Loop)
    requires Wf(s) && s.stack != []
    ensures Evolves(s, Run(s))
  {
    hide Wf, Settle, WireNext, StoreValue;
    var s1 := Pop(s);
    match s.stack[0] {
      case Finish(p, r) => SettleEvolves(s1, p, Bare(r));
      case Wire(j) => WireEvolves(s1, j);
      case Call(_, Handler(p), r) =>
      case Call(_, Pass(p), r) => SettleEvolves(s1, p, r);
      case Call(_, Store(j, i), r) =>
        if r.Fulfilled? {
          StoreEvolves(s1, j, i, r.value);
        }
    }
    EvolvesOn(s, s1, Run(s));
  }

  lemma StepEvolves(s: Loop, e: Event)
    requires Enabled(s, e)
    ensures Evolves(s, Step(s, e))
  {
    match e {
      case New =>
      case Then(p, given) =>
        var s1 := Added(s, FRESH).(next := s.next + 1);
        hide Register;
        RegisterEvolves(s1, p, GivenReg(s, |s.promises|, given));
        hide Wf;
        EvolvesOn(s, s1, Step(s, e));
      case All(inputs) => hide Wf;
      case SettleIt(p, r) => SettleEvolves(s, p, r);
      case Continue => RunEvolves(s);
    }
  }

  lemma EvolvesOn(s: Loop, s1: Loop, s2: Loop)
    requires Evolves(s, s1) && Evolves(s1, s2)
    ensures Evolves(s, s2)
  {
  }

  // ---------- what all's callbacks do ----------

  /** A promise that no join settles. */
  predicate Free(s: Loop, p: nat) {
    p < |s.promises| && s.promises[p].owner.None?
  }

  /** id is the registration of one of the inputs, p. */
  predicate Registered(jn: Join, id: nat, p: nat) {
    exists i :: 0 <= i < |jn.ids| && i < |jn.inputs| && jn.ids[i] == id && jn.inputs[i] == p
  }

  /** Only the callbacks of all settle its promise, and only a rejected input lets them reject it. */
  predicate ActionOk(s: Loop, id: nat, a: Action, p: nat) {
    match a
    case Handler(t) => Free(s, t)
    case Pass(t) =>
      && t < |s.promises|
      && (s.promises[t].owner.Some? ==>
        var j := s.promises[t].owner.value; j < |s.joins| && s.joins[j].target == t && Registered(s.joins[j], id, p))
    case Store(j, i) =>
      j < |s.joins| && i < |s.joins[j].ids| && i < |s.joins[j].inputs| && s.joins[j].ids[i] == id &&
        s.joins[j].inputs[i] == p
  }

  predicate RegOk(s: Loop, p: nat, g: Reg) {
    && ActionOk(s, g.id, g.onFulfilled, p) && ActionOk(s, g.id, g.onRejected, p)
    && !g.onRejected.Store?
    && (g.onFulfilled.Pass? ==> Free(s, g.onFulfilled.npm))
  }

  /** The promise a callback was registered on is settled as the callback says. */
  predicate CallOk(s: Loop, id: nat, a: Action, r: Result, p: nat) {
    && p < |s.promises| && s.promises[p].state == Some(r)
    && ActionOk(s, id, a, p)
    && (a.Store? ==> r.Fulfilled?)
    && (a.Pass? && s.promises[a.npm].owner.Some? ==> r.Rejected?)
  }

  ghost predicate TaskOk(s: Loop, t: Task) {
    match t
    case Call(id, a, r) => exists p :: CallOk(s, id, a, r, p)
    case Finish(p, _) => Free(s, p)
    case Wire(j) => j < |s.joins|
  }

  ghost predicate TasksOk(s: Loop) {
    && (forall p, g | 0 <= p < |s.promises| && g in s.promises[p].regs :: RegOk(s, p, g))
    && (forall t | t in s.stack :: TaskOk(s, t))
  }

  lemma ActionKept(s: Loop, s': Loop, id: nat, a: Action, p: nat)
    requires Evolves(s, s') && ActionOk(s, id, a, p)
    ensures ActionOk(s', id, a, p)
  {
  }

  lemma TaskKept(s: Loop, s': Loop, t: Task)
    requires Evolves(s, s') && TaskOk(s, t)
    ensures TaskOk(s', t)
  {
    match t {
      case Call(id, a, r) =>
        var p :| CallOk(s, id, a, r, p);
        ActionKept(s, s', id, a, p);
        assert CallOk(s', id, a, r, p);
      case Finish(_, _) =>
      case Wire(_) =>
    }
  }

  lemma RegKept(s: Loop, s': Loop, p: nat, g: Reg)
    requires Evolves(s, s') && RegOk(s, p, g)
    ensures RegOk(s', p, g)
  {
    ActionKept(s, s', g.id, g.onFulfilled, p);
    ActionKept(s, s', g.id, g.onRejected, p);
  }

  /** Whatever is new to wait or to run must be in order; the rest stays so. */
  lemma TasksKept(s: Loop, s': Loop)
    requires TasksOk(s) && Evolves(s, s')
    requires forall p, g | 0 <= p < |s'.promises| && g in s'.promises[p].regs ::
      (p < |s.promises| && g in s.promises[p].regs) || RegOk(s', p, g)
    requires forall t | t in s'.stack :: t in s.stack || TaskOk(s', t)
    ensures TasksOk(s')
  {
    hide Evolves, RegOk, TaskOk;
    forall p, g | 0 <= p < |s'.promises| && g in s'.promises[p].regs ensures RegOk(s', p, g) {
      if p < |s.promises| && g in s.promises[p].regs {
        RegKept(s, s', p, g);
      }
    }
    forall t | t in s'.stack ensures TaskOk(s', t) {
      if t in s.stack {
        TaskKept(s, s', t);
      }
    }
  }

  lemma SettleTasks(s: Loop, p: nat, r: Result)
    requires Wf(s) && p < |s.promises| && TasksOk(s)
    ensures TasksOk(Settle(s, p, r))
  {
    var s' := Settle(s, p, r);
    SettleEvolves(s, p, r);
    if s.promises[p].state.None? {
      forall t | t in s'.stack && t !in s.stack ensures TaskOk(s', t) {
        var i :| 0 <= i < |s.promises[p].regs| && t == Calls(s.promises[p].regs, r)[i];
        var g := s.promises[p].regs[i];
        assert RegOk(s, p, g);
        RegKept(s, s', p, g);
        hide Evolves, Wf, TasksOk, Calls;
        assert CallOk(s', g.id, g.For(r), r, p);
      }
      hide Evolves, Wf, TaskOk, RegOk, Calls;
      TasksKept(s, s');
    }
  }

  lemma RegisterTasks(s: Loop, p: nat, g: Reg)
    requires Wf(s) && p < |s.promises| && TasksOk(s) && RegOk(s, p, g)
    requires ActionWf(|s.promises|, s.joins, g.onFulfilled) && ActionWf(|s.promises|, s.joins, g.onRejected)
    ensures TasksOk(Register(s, p, g))
  {
    var s' := Register(s, p, g);
    RegisterEvolves(s, p, g);
    RegKept(s, s', p, g);
    if s.promises[p].state.Some? {
      assert CallOk(s', g.id, g.For(s.promises[p].state.value), s.promises[p].state.value, p);
    }
    hide Evolves, Wf, RegOk, CallOk;
    TasksKept(s, s');
  }

  // ---------- what all has gathered ----------

  function Missing(rs: seq<Option<Value>>): nat {
    if rs == [] then 0 else (if rs[0].None? then 1 else 0) + Missing(rs[1..])
  }

  lemma {:induction false} MissingFill(rs: seq<Option<Value>>, i: nat, v: Value)
    requires i < |rs| && rs[i].None?
    ensures Missing(rs[i := Some(v)]) == Missing(rs) - 1
  {
    if i == 0 {
      assert rs[i := Some(v)][1..] == rs[1..];
    } else {
      assert rs[i := Some(v)][1..] == rs[1..][i - 1 := Some(v)];
      MissingFill(rs[1..], i - 1, v);
    }
  }

  lemma {:induction false} MissingSome(rs: seq<Option<Value>>)
    ensures Missing(rs) == 0 <==> forall i | 0 <= i < |rs| :: rs[i].Some?
  {
    if rs != [] {
      MissingSome(rs[1..]);
      if forall i | 0 <= i < |rs| :: rs[i].Some? {
        forall i | 0 <= i < |rs[1..]| ensures rs[1..][i].Some? {
          assert rs[1..][i] == rs[i + 1];
        }
      }
    }
  }

  lemma {:induction false} AllMissing(n: nat)
    ensures Missing(seq(n, _ => None)) == n
  {
    var rs: seq<Option<Value>> := seq(n, _ => None);
    if n > 0 {
      AllMissing(n - 1);
      assert rs[1..] == seq(n - 1, _ => None);
    }
  }

  /** What the callback being run still owes: the target of a join its settlement, a slot its value, a join its loop. */
  datatype Due = Nobody | Target(j: nat) | Slot(j: nat, i: nat) | Wiring(j: nat)

  function StateOf(s: Loop, p: nat): Option<Result> {
    if p < |s.promises| then s.promises[p].state else None
  }

  predicate RejectedInput(s: Loop, jn: Join, r: Value) {
    exists p :: p in jn.inputs && StateOf(s, p) == Some(Rejected(r))
  }

  /** Slot i holds the value of input i, or its callback is waiting, or about to run. */
  predicate SlotOk(s: Loop, j: nat, i: nat, due: Due)
    requires j < |s.joins| && JoinWf(|s.promises|, s.joins[j]) && i < |s.joins[j].inputs|
  {
    var jn, p := s.joins[j], s.joins[j].inputs[i];
    if i >= |jn.ids| then jn.results[i].None?
    else
      && (jn.results[i].Some? ==> StateOf(s, p) == Some(Fulfilled(jn.results[i].value)) && jn.ids[i] in s.fired)
      && p < |s.promises|
      && match StateOf(s, p)
         case None => Reg(jn.ids[i], Store(j, i), Pass(jn.target)) in s.promises[p].regs
         case Some(Fulfilled(v)) =>
           jn.results[i].Some? || due == Slot(j, i) || Call(jn.ids[i], Store(j, i), Fulfilled(v)) in s.stack
         case Some(Rejected(r)) =>
           StateOf(s, jn.target).Some? || due == Target(j) || Call(jn.ids[i], Pass(jn.target), Rejected(r)) in s.stack
  }

  /** The promise of all is settled only as its inputs are. */
  predicate TargetOk(s: Loop, jn: Join, isDue: bool) {
    match StateOf(s, jn.target)
    case None => jn.count > 0 || isDue
    case Some(Fulfilled(v)) => jn.count == 0 && v == Values(Unwrap(jn.results))
    case Some(Rejected(r)) => RejectedInput(s, jn, r)
  }

  predicate JoinOk(s: Loop, j: nat, due: Due) {
    && j < |s.joins|
    && var jn := s.joins[j];
    && JoinWf(|s.promises|, jn) && jn.inputs != []
    && s.promises[jn.target].owner == Some(j)
    && jn.count == Missing(jn.results)
    && (|jn.ids| < |jn.inputs| && due != Wiring(j) ==> Wire(j) in s.stack)
    && TargetOk(s, jn, due == Target(j))
    && forall i {:trigger SlotOk(s, j, i, due)} | 0 <= i < |jn.inputs| :: SlotOk(s, j, i, due)
  }

  predicate JoinsOk(s: Loop, due: Due) {
    forall j {:trigger JoinOk(s, j, due)} | 0 <= j < |s.joins| :: JoinOk(s, j, due)
  }

  ghost predicate Inv(s: Loop) {
    Wf(s) && OnePlace(s) && TasksOk(s) && JoinsOk(s, Nobody)
  }

  lemma RejectedKept(s: Loop, s': Loop, jn: Join, r: Value)
    requires Evolves(s, s') && RejectedInput(s, jn, r)
    ensures RejectedInput(s', jn, r)
  {
    var p :| p in jn.inputs && StateOf(s, p) == Some(Rejected(r));
    assert StateOf(s', p) == Some(Rejected(r));
  }

  /** Settling the promise of a join, or one no join cares for. */
  predicate Fits(s: Loop, p: nat, r: Result, due: Due)
    requires p < |s.promises|
  {
    match s.promises[p].owner
    case None => due == Nobody
    case Some(j) =>
      && j < |s.joins| && s.joins[j].target == p && (due == Nobody || due == Target(j))
      && match r
         case Fulfilled(v) => s.joins[j].count == 0 && v == Values(Unwrap(s.joins[j].results))
         case Rejected(x) => RejectedInput(s, s.joins[j], x)
  }

  lemma SettleSlot(s: Loop, p: nat, r: Result, due: Due, j: nat, i: nat)
    requires Wf(s) && p < |s.promises| && Fits(s, p, r, due) && JoinOk(s, j, due) && i < |s.joins[j].inputs|
    ensures var s' := Settle(s, p, r);
      j < |s'.joins| && JoinWf(|s'.promises|, s'.joins[j]) && i < |s'.joins[j].inputs| && SlotOk(s', j, i, Nobody)
  {
    assert SlotOk(s, j, i, due);
    var s', jn := Settle(s, p, r), s.joins[j];
    if s.promises[p].state.None? {
      hide Wf, TargetOk, JoinOk;
      if i < |jn.ids| && jn.inputs[i] == p {
        var g := Reg(jn.ids[i], Store(j, i), Pass(jn.target));
        var k :| 0 <= k < |s.promises[p].regs| && s.promises[p].regs[k] == g;
        assert Calls(s.promises[p].regs, r)[k] == Call(g.id, g.For(r), r);
        assert Call(g.id, g.For(r), r) in s'.stack;
      }
    }
  }

  lemma SettleJoins(s: Loop, p: nat, r: Result, due: Due)
    requires Wf(s) && p < |s.promises| && JoinsOk(s, due) && Fits(s, p, r, due)
    ensures JoinsOk(Settle(s, p, r), Nobody)
  {
    var s' := Settle(s, p, r);
    SettleEvolves(s, p, r);
    forall j | 0 <= j < |s'.joins| ensures JoinOk(s', j, Nobody) {
      assert JoinOk(s, j, due);
      var jn := s.joins[j];
      forall i | 0 <= i < |jn.inputs| ensures SlotOk(s', j, i, Nobody) {
        SettleSlot(s, p, r, due, j, i);
      }
      assert TargetOk(s', jn, false) by {
        hide Wf, SlotOk;
        forall x | RejectedInput(s, jn, x) ensures RejectedInput(s', jn, x) {
          RejectedKept(s, s', jn, x);
        }
      }
      hide Wf, SlotOk, TargetOk;
    }
  }

  /** What a callback owes from the moment it is taken off the stack. */
  function DueOf(s: Loop, t: Task): Due {
    match t
    case Call(_, Pass(p), _) =>
      if p < |s.promises| && s.promises[p].owner.Some? then Target(s.promises[p].owner.value) else Nobody
    case Call(_, Store(j, i), _) => Slot(j, i)
    case Wire(j) => Wiring(j)
    case _ => Nobody
  }

  lemma PopJoins(s: Loop)
    requires Wf(s) && s.stack != [] && JoinsOk(s, Nobody)
    ensures JoinsOk(Pop(s), DueOf(s, s.stack[0]))
  {
    var s', k := Pop(s), s.stack[0];
    var due := DueOf(s, k);
    assert forall t | t in s.stack && t != k :: t in s'.stack;
    assert forall f | f in s.fired :: f in s'.fired;
    forall j | 0 <= j < |s'.joins| ensures JoinOk(s', j, due) {
      assert JoinOk(s, j, Nobody);
      var jn := s.joins[j];
      hide Wf;
      forall i | 0 <= i < |jn.inputs| ensures SlotOk(s', j, i, due) {
        assert SlotOk(s, j, i, Nobody);
      }
      hide SlotOk;
    }
  }

  lemma FillSlots(s: Loop, j: nat, i: nat, v: Value, due: Due)
    requires Wf(s) && j < |s.joins| && JoinOk(s, j, Slot(j, i)) && i < |s.joins[j].ids| && i < |s.joins[j].inputs|
    requires s.joins[j].results[i].None? && s.joins[j].ids[i] in s.fired
    requires StateOf(s, s.joins[j].inputs[i]) == Some(Fulfilled(v))
    ensures var s' := Fill(s, j, i, v);
      forall k | 0 <= k < |s.joins[j].inputs| :: SlotOk(s', j, k, due)
  {
    var s', jn := Fill(s, j, i, v), s.joins[j];
    forall k | 0 <= k < |jn.inputs| ensures SlotOk(s', j, k, due) {
      assert SlotOk(s, j, k, Slot(j, i));
      hide Wf, JoinOk;
    }
  }

  lemma FillJoins(s: Loop, j: nat, i: nat, v: Value)
    requires Wf(s) && j < |s.joins| && JoinsOk(s, Slot(j, i)) && i < |s.joins[j].ids| && i < |s.joins[j].inputs|
    requires s.joins[j].results[i].None? && s.joins[j].ids[i] in s.fired
    requires StateOf(s, s.joins[j].inputs[i]) == Some(Fulfilled(v))
    ensures JoinsOk(Fill(s, j, i, v), if s.joins[j].count == 1 then Target(j) else Nobody)
  {
    var s', due := Fill(s, j, i, v), if s.joins[j].count == 1 then Target(j) else Nobody;
    forall k | 0 <= k < |s'.joins| ensures JoinOk(s', k, due) {
      assert JoinOk(s, k, Slot(j, i));
      if k == j {
        FillSlots(s, j, i, v, due);
        MissingFill(s.joins[j].results, i, v);
        MissingSome(s.joins[j].results);
        hide Wf, SlotOk;
        assert forall r | RejectedInput(s, s.joins[j], r) :: RejectedInput(s', s'.joins[j], r);
      } else {
        OtherJoin(s, s', k, Slot(j, i), due);
      }
    }
  }

  /** A join whose fields a step leaves alone, along with everything it looks at. */
  lemma OtherJoin(s: Loop, s': Loop, k: nat, due: Due, due': Due)
    requires JoinOk(s, k, due) && Evolves(s, s') && k < |s'.joins| && s'.joins[k] == s.joins[k]
    requires forall p | 0 <= p < |s.promises| :: s'.promises[p].state == s.promises[p].state
    requires forall p, g | 0 <= p < |s.promises| && g in s.promises[p].regs :: g in s'.promises[p].regs
    requires forall t | t in s.stack :: t in s'.stack
    requires due' == due || ((due == Nobody || (due.Slot? && due.j != k) || (due.Wiring? && due.j != k)))
    ensures JoinOk(s', k, due')
  {
    var jn := s.joins[k];
    forall i | 0 <= i < |jn.inputs| ensures SlotOk(s', k, i, due') {
      assert SlotOk(s, k, i, due);
      assert jn.inputs[i] in jn.inputs;
    }
    hide SlotOk;
    forall r | RejectedInput(s, jn, r) ensures RejectedInput(s', jn, r) {
      RejectedKept(s, s', jn, r);
    }
  }

  lemma RegisterJoins(s: Loop, p: nat, g: Reg)
    requires Wf(s) && p < |s.promises| && JoinsOk(s, Nobody)
    requires ActionWf(|s.promises|, s.joins, g.onFulfilled) && ActionWf(|s.promises|, s.joins, g.onRejected)
    ensures JoinsOk(Register(s, p, g), Nobody)
  {
    var s' := Register(s, p, g);
    RegisterEvolves(s, p, g);
    hide Wf, Evolves;
    forall k | 0 <= k < |s'.joins| ensures JoinOk(s', k, Nobody) {
      assert JoinOk(s, k, Nobody);
      hide JoinOk;
      OtherJoin(s, s', k, Nobody, Nobody);
    }
  }

  lemma WireSlots(s: Loop, j: nat)
    requires Wf(s) && j < |s.joins| && JoinOk(s, j, Wiring(j)) && |s.joins[j].ids| < |s.joins[j].inputs|
    ensures var s' := WireNext(s, j);
      && j < |s'.joins| && JoinWf(|s'.promises|, s'.joins[j]) && |s'.joins[j].inputs| == |s.joins[j].inputs|
      && forall i | 0 <= i < |s.joins[j].inputs| :: SlotOk(s', j, i, Nobody)
  {
    var s', jn := WireNext(s, j), s.joins[j];
    assert jn.inputs[|jn.ids|] in jn.inputs;
    forall i | 0 <= i < |jn.inputs| ensures SlotOk(s', j, i, Nobody) {
      assert SlotOk(s, j, i, Wiring(j));
      assert jn.inputs[i] in jn.inputs;
      hide Wf, JoinOk;
    }
  }

  lemma WireJoins(s: Loop, j: nat)
    requires Wf(s) && j < |s.joins| && JoinsOk(s, Wiring(j))
    ensures JoinsOk(WireNext(s, j), Nobody)
  {
    var s', jn := WireNext(s, j), s.joins[j];
    assert JoinOk(s, j, Wiring(j));
    WireEvolves(s, j);
    forall k | 0 <= k < |s'.joins| ensures JoinOk(s', k, Nobody) {
      assert JoinOk(s, k, Wiring(j));
      if k != j || |jn.ids| == |jn.inputs| {
        if k == j {
          hide Wf;
          forall i | 0 <= i < |jn.inputs| ensures SlotOk(s', j, i, Nobody) {
            assert SlotOk(s, j, i, Wiring(j));
          }
        } else {
          hide JoinOk;
          OtherJoin(s, s', k, Wiring(j), Nobody);
        }
      } else {
        WireSlots(s, j);
        hide SlotOk, Wf;
        forall r | RejectedInput(s, jn, r) ensures RejectedInput(s', s'.joins[j], r) {
          RejectedKept(s, s', jn, r);
        }
      }
    }
  }

  // ---------- one step ----------

  lemma PopTasks(s: Loop)
    requires Wf(s) && s.stack != [] && TasksOk(s)
    ensures TasksOk(Pop(s)) && TaskOk(Pop(s), s.stack[0])
  {
    hide Wf, TaskOk, RegOk;
    assert s.stack[0] in s.stack;
    TasksKept(s, Pop(s));
    TaskKept(s, Pop(s), s.stack[0]);
  }

  lemma WireTasks(s: Loop, j: nat)
    requires Wf(s) && j < |s.joins| && TasksOk(s) && JoinOk(s, j, Wiring(j))
    ensures TasksOk(WireNext(s, j))
  {
    var jn := s.joins[j];
    if |jn.ids| < |jn.inputs| {
      var s1 := s.(joins := s.joins[j := jn.(ids := jn.ids + [s.next])], next := s.next + 1,
        stack := [Wire(j)] + s.stack);
      var p, g := jn.inputs[|jn.ids|], Reg(s.next, Store(j, |jn.ids|), Pass(jn.target));
      assert p in jn.inputs;
      assert RegOk(s1, p, g);
      assert Wf(s1);
      assert TaskOk(s1, Wire(j));
      assert ActionWf(|s1.promises|, s1.joins, g.onFulfilled) && ActionWf(|s1.promises|, s1.joins, g.onRejected);
      hide Wf, TaskOk, RegOk, JoinOk;
      TasksKept(s, s1);
      hide Evolves;
      RegisterTasks(s1, p, g);
    }
  }

  lemma FillTasks(s: Loop, j: nat, i: nat, v: Value)
    requires Wf(s) && j < |s.joins| && i < |s.joins[j].inputs| && TasksOk(s)
    ensures TasksOk(Fill(s, j, i, v))
  {
    hide TaskOk, RegOk;
    assert Evolves(s, Fill(s, j, i, v));
    hide Wf;
    TasksKept(s, Fill(s, j, i, v));
  }

  /** A slot whose callback is only now about to run is still empty. */
  lemma NotYetFilled(s: Loop, id: nat, j: nat, i: nat, r: Result)
    requires Inv(s) && s.stack != [] && s.stack[0] == Call(id, Store(j, i), r)
    ensures r.Fulfilled? && j < |s.joins| && i < |s.joins[j].ids| && i < |s.joins[j].inputs| == |s.joins[j].results|
    ensures s.joins[j].ids[i] == id && s.joins[j].results[i].None?
    ensures StateOf(s, s.joins[j].inputs[i]) == Some(r)
  {
    assert s.stack[0] in s.stack;
    assert TaskOk(s, s.stack[0]);
    var p :| CallOk(s, id, Store(j, i), r, p);
    assert JoinOk(s, j, Nobody);
    assert SlotOk(s, j, i, Nobody);
    TopNotFired(s);
  }

  /** What is about to run has not fired. */
  lemma TopNotFired(s: Loop)
    requires OnePlace(s) && s.stack != [] && s.stack[0].Call?
    ensures s.stack[0].id !in s.fired
  {
    assert Places(s, s.stack[0].id) <= 1;
  }

  lemma StoreInv(s: Loop, id: nat, j: nat, i: nat, r: Result)
    requires Inv(s) && s.stack != [] && s.stack[0] == Call(id, Store(j, i), r)
    ensures TasksOk(Run(s)) && JoinsOk(Run(s), Nobody)
  {
    NotYetFilled(s, id, j, i, r);
    PopTasks(s);
    PopJoins(s);
    var s1 := Pop(s);
    assert s1.fired[|s1.fired| - 1] == id;
    var s2 := Fill(s1, j, i, r.value);
    FillTasks(s1, j, i, r.value);
    FillJoins(s1, j, i, r.value);
    if s2.joins[j].count == 0 {
      var t, x := s2.joins[j].target, Fulfilled(Values(Unwrap(s2.joins[j].results)));
      assert JoinOk(s2, j, Target(j));
      assert Fits(s2, t, x, Target(j));
      hide Inv, TasksOk, JoinsOk, JoinOk, Fits, Pop, Fill;
      SettleTasks(s2, t, x);
      SettleJoins(s2, t, x, Target(j));
    }
  }

  lemma PassInv(s: Loop, id: nat, t: nat, r: Result)
    requires Inv(s) && s.stack != [] && s.stack[0] == Call(id, Pass(t), r)
    ensures TasksOk(Run(s)) && JoinsOk(Run(s), Nobody)
  {
    PopTasks(s);
    PopJoins(s);
    var s1 := Pop(s);
    var p :| CallOk(s1, id, Pass(t), r, p);
    var due := DueOf(s, s.stack[0]);
    assert Fits(s1, t, r, due) by {
      if s1.promises[t].owner.Some? {
        var j := s1.promises[t].owner.value;
        assert p in s1.joins[j].inputs && StateOf(s1, p) == Some(r);
      }
    }
    hide Inv, TasksOk, JoinsOk, Fits, Pop;
    SettleTasks(s1, t, r);
    SettleJoins(s1, t, r, due);
  }

  lemma RunInv(s: Loop)
    requires Inv(s) && s.stack != []
    ensures Inv(Run(s))
  {
    StepPlaces(s, Continue);
    PopTasks(s);
    PopJoins(s);
    var s1, k := Pop(s), s.stack[0];
    match k {
      case Call(id, Store(j, i), r) => StoreInv(s, id, j, i, r);
      case Call(id, Pass(t), r) => PassInv(s, id, t, r);
      case Call(id, Handler(t), r) =>
        var p :| CallOk(s1, id, Handler(t), r, p);
        hide Inv, JoinsOk, Pop, RegOk;
        HandlerInv(s1, t, r);
      case Finish(t, r) =>
        hide Inv, TasksOk, JoinsOk, Pop;
        SettleTasks(s1, t, Bare(r));
        SettleJoins(s1, t, Bare(r), Nobody);
      case Wire(j) =>
        assert JoinOk(s1, j, Wiring(j));
        hide Inv, TasksOk, JoinsOk, Pop, JoinOk;
        WireTasks(s1, j);
        WireJoins(s1, j);
    }
  }

  lemma HandlerInv(s: Loop, t: nat, r: Result)
    requires Wf(s) && TasksOk(s) && JoinsOk(s, Nobody) && Free(s, t)
    ensures TasksOk(Push(s, Finish(t, r))) && JoinsOk(Push(s, Finish(t, r)), Nobody)
  {
    var s' := Push(s, Finish(t, r));
    assert TaskOk(s', Finish(t, r));
    hide Wf, TaskOk, RegOk;
    TasksKept(s, s');
    forall k | 0 <= k < |s'.joins| ensures JoinOk(s', k, Nobody) {
      assert JoinOk(s, k, Nobody);
      hide JoinOk;
      OtherJoin(s, s', k, Nobody, Nobody);
    }
  }

  lemma AddedInv(s: Loop, next: nat)
    requires Wf(s) && TasksOk(s) && JoinsOk(s, Nobody)
    ensures var s' := Added(s, FRESH).(next := next); Wf(s') && TasksOk(s') && JoinsOk(s', Nobody)
  {
    var s' := Added(s, FRESH).(next := next);
    hide TaskOk, RegOk;
    TasksKept(s, s');
    forall k | 0 <= k < |s'.joins| ensures JoinOk(s', k, Nobody) {
      assert JoinOk(s, k, Nobody);
      hide JoinOk, Wf;
      OtherJoin(s, s', k, Nobody, Nobody);
    }
  }

  lemma ThenInv(s: Loop, p: nat, given: Given)
    requires Inv(s) && p < |s.promises|
    ensures TasksOk(ThenOn(s, p, given)) && JoinsOk(ThenOn(s, p, given), Nobody)
  {
    var s1, g := Added(s, FRESH).(next := s.next + 1), GivenReg(s, |s.promises|, given);
    AddedInv(s, s.next + 1);
    assert RegOk(s1, p, g);
    hide TasksOk, JoinsOk, RegOk, OnePlace;
    RegisterTasks(s1, p, g);
    RegisterJoins(s1, p, g);
  }

  lemma AllInv(s: Loop, inputs: seq<nat>)
    requires Inv(s) && inputs != [] && forall p | p in inputs :: p < |s.promises|
    ensures TasksOk(AllOf(s, inputs)) && JoinsOk(AllOf(s, inputs), Nobody)
  {
    var s', j := AllOf(s, inputs), |s.joins|;
    assert TaskOk(s', Wire(j));
    AllMissing(|inputs|);
    hide TaskOk, RegOk, OnePlace;
    TasksKept(s, s');
    forall k | 0 <= k < |s'.joins| ensures JoinOk(s', k, Nobody) {
      if k < j {
        assert JoinOk(s, k, Nobody);
        hide JoinOk, Wf;
        OtherJoin(s, s', k, Nobody, Nobody);
      } else {
        forall i | 0 <= i < |inputs| ensures SlotOk(s', j, i, Nobody) {
        }
      }
    }
  }

  lemma StepInv(s: Loop, e: Event)
    requires Inv(s) && Enabled(s, e)
    ensures Inv(Step(s, e))
  {
    StepPlaces(s, e);
    match e {
      case New => hide OnePlace; AddedInv(s, s.next);
      case Then(p, given) => ThenInv(s, p, given);
      case All(inputs) => AllInv(s, inputs);
      case SettleIt(p, r) =>
        hide OnePlace, TasksOk, JoinsOk;
        SettleTasks(s, p, r);
        SettleJoins(s, p, r, Nobody);
      case Continue => RunInv(s);
    }
  }

  // ---------- runs ----------

  ghost predicate StepAt(ss: seq<Loop>, es: seq<Event>, i: nat)
    requires |ss| == |es| + 1 && i < |es|
  {
    Enabled(ss[i], es[i]) && ss[i + 1] == Step(ss[i], es[i])
  }

  /** A run: the client may act at any point, also while callbacks are waiting on the stack. */
  ghost predicate IsRun(ss: seq<Loop>, es: seq<Event>) {
    && |ss| == |es| + 1
    && ss[0] == EMPTY
    && forall i {:trigger StepAt(ss, es, i)} | 0 <= i < |es| :: StepAt(ss, es, i)
  }

  lemma {:induction false} ReachableInv(ss: seq<Loop>, es: seq<Event>, i: nat)
    requires IsRun(ss, es) && i < |ss|
    ensures Inv(ss[i])
  {
    if i > 0 {
      hide Inv, Step, Enabled;
      ReachableInv(ss, es, i - 1);
      assert StepAt(ss, es, i - 1);
      StepInv(ss[i - 1], es[i - 1]);
    }
  }

  lemma {:induction false} LaterEvolves(ss: seq<Loop>, es: seq<Event>, i: nat, j: nat)
    requires IsRun(ss, es) && i <= j < |ss|
    ensures Evolves(ss[i], ss[j])
  {
    if i < j {
      hide Step, Enabled, Evolves;
      LaterEvolves(ss, es, i, j - 1);
      assert StepAt(ss, es, j - 1);
      StepEvolves(ss[j - 1], es[j - 1]);
      EvolvesOn(ss[i], ss[j - 1], ss[j]);
    }
  }

  /** Each promise settles at most once: what it is settled with stays for the rest of the run. */
  lemma SettlesOnce(ss: seq<Loop>, es: seq<Event>, i: nat, j: nat, p: nat)
    requires IsRun(ss, es) && i <= j < |ss| && StateOf(ss[i], p).Some?
    ensures StateOf(ss[j], p) == StateOf(ss[i], p)
  {
    hide IsRun;
    LaterEvolves(ss, es, i, j);
  }

  /** Each registration fires at most once; and once nothing is left to run, it has fired exactly if it
    * does not wait on a pending promise. */
  lemma FiresOnce(ss: seq<Loop>, es: seq<Event>, i: nat, t: nat)
    requires IsRun(ss, es) && i < |ss|
    ensures multiset(ss[i].fired)[t] <= 1
    ensures t < ss[i].next && ss[i].stack == [] ==> (t in ss[i].fired <==> Waiting(ss[i].promises, t) == 0)
  {
    hide IsRun, Wf, TasksOk, JoinsOk, Waiting;
    ReachableInv(ss, es, i);
    assert Places(ss[i], t) == if t < ss[i].next then 1 else 0;
  }

  /** How many inputs are not fulfilled, an input given twice counting twice. */
  function Unfulfilled(s: Loop, inputs: seq<nat>): nat {
    if inputs == [] then 0
    else (match StateOf(s, inputs[0]) case Some(Fulfilled(_)) => 0 case _ => 1) + Unfulfilled(s, inputs[1..])
  }

  predicate IsFulfilled(s: Loop, p: nat) {
    StateOf(s, p).Some? && StateOf(s, p).value.Fulfilled?
  }

  predicate IsRejected(s: Loop, p: nat) {
    StateOf(s, p).Some? && StateOf(s, p).value.Rejected?
  }

  lemma {:induction false} MissingIsUnfulfilled(s: Loop, inputs: seq<nat>, rs: seq<Option<Value>>)
    requires |rs| == |inputs|
    requires forall i | 0 <= i < |rs| :: rs[i].Some? <==> IsFulfilled(s, inputs[i])
    ensures Missing(rs) == Unfulfilled(s, inputs)
  {
    if rs != [] {
      forall i | 0 <= i < |rs[1..]| ensures rs[1..][i].Some? <==> IsFulfilled(s, inputs[1..][i]) {
        assert rs[1..][i] == rs[i + 1] && inputs[1..][i] == inputs[i + 1];
      }
      MissingIsUnfulfilled(s, inputs[1..], rs[1..]);
    }
  }

  /** Once nothing is left to run, the loop of all is through and every slot says whether its input is fulfilled. */
  lemma QuietSlots(s: Loop, j: nat)
    requires Inv(s) && s.stack == [] && j < |s.joins|
    ensures JoinOk(s, j, Nobody) && |s.joins[j].ids| == |s.joins[j].inputs|
    ensures forall i | 0 <= i < |s.joins[j].inputs| ::
      && (s.joins[j].results[i].Some? <==> IsFulfilled(s, s.joins[j].inputs[i]))
      && (s.joins[j].results[i].Some? ==>
        StateOf(s, s.joins[j].inputs[i]) == Some(Fulfilled(s.joins[j].results[i].value)))
      && (IsRejected(s, s.joins[j].inputs[i]) ==> StateOf(s, s.joins[j].target).Some?)
  {
    assert JoinOk(s, j, Nobody);
    hide Wf, OnePlace, TasksOk, JoinsOk, TargetOk;
    forall i | 0 <= i < |s.joins[j].inputs|
      ensures s.joins[j].results[i].Some? <==> IsFulfilled(s, s.joins[j].inputs[i])
      ensures s.joins[j].results[i].Some? ==>
        StateOf(s, s.joins[j].inputs[i]) == Some(Fulfilled(s.joins[j].results[i].value))
      ensures IsRejected(s, s.joins[j].inputs[i]) ==> StateOf(s, s.joins[j].target).Some?
    {
      assert SlotOk(s, j, i, Nobody);
    }
  }

  /** The values of fulfilled inputs, in input order. */
  function InputValues(s: Loop, inputs: seq<nat>): seq<Value>
    requires forall p | p in inputs :: IsFulfilled(s, p)
  {
    seq(|inputs|, i requires 0 <= i < |inputs| => assert IsFulfilled(s, inputs[i]); StateOf(s, inputs[i]).value.value)
  }

  /** all, once nothing is left to run. */
  lemma AllSettlesAt(s: Loop, j: nat)
    requires Inv(s) && s.stack == [] && j < |s.joins|
    ensures var jn := s.joins[j];
      && (IsFulfilled(s, jn.target) <==> forall p | p in jn.inputs :: IsFulfilled(s, p))
      && (IsFulfilled(s, jn.target) ==> StateOf(s, jn.target) == Some(Fulfilled(Values(InputValues(s, jn.inputs)))))
      && (IsRejected(s, jn.target) <==> exists p :: p in jn.inputs && IsRejected(s, p))
      && (IsRejected(s, jn.target) ==> exists p :: p in jn.inputs && StateOf(s, p) == StateOf(s, jn.target))
      && jn.count == Unfulfilled(s, jn.inputs)
  {
    var jn := s.joins[j];
    QuietSlots(s, j);
    hide Inv, SlotOk;
    MissingIsUnfulfilled(s, jn.inputs, jn.results);
    MissingSome(jn.results);
    if IsFulfilled(s, jn.target) {
      forall p | p in jn.inputs ensures IsFulfilled(s, p) {
        var i :| 0 <= i < |jn.inputs| && jn.inputs[i] == p;
      }
      assert Unwrap(jn.results) == InputValues(s, jn.inputs);
    }
    if exists p :: p in jn.inputs && IsRejected(s, p) {
      var p :| p in jn.inputs && IsRejected(s, p);
      var i :| 0 <= i < |jn.inputs| && jn.inputs[i] == p;
      assert jn.results[i].None?;
    }
  }
}
