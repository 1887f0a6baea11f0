/** What `then` and `fail` promise: when the handler runs, and how the promise they return is settled. */
module PromiseThen {
  import opened Blocks
  import opened Promises
  import opened PromiseOrder

  /** One call of then or fail: on which promise, with which handlers, what it returned, and its registration. */
  datatype Link = Link(p: nat, given: Given, npm: nat, id: nat) {
    function Registration(): Reg {
      Reg(id,
          if given.OnRejected? then Pass(npm) else Handler(npm),
          if given.OnFulfilled? then Pass(npm) else Handler(npm))
    }
  }

  /** A handler is given for the way r is settled. */
  predicate Runs(given: Given, r: Result) {
    if r.Fulfilled? then !given.OnRejected? else !given.OnFulfilled?
  }

  /** How the promise that then returned is settled once p is settled with r: as the handler leaves it, without a value,
    * or with what p has if no handler is given for it. */
  function ThenResult(given: Given, r: Result): Result {
    match r
    case Fulfilled(v) => Fulfilled(if given.OnRejected? then v else Nothing)
    case Rejected(v) => Rejected(if given.OnFulfilled? then v else Nothing)
  }

  // ---------- one call of then, followed through a run ----------

  predicate Names(a: Action, npm: nat) {
    (a.Handler? || a.Pass?) && a.npm == npm
  }

  /** Only the one registration settles the promise. */
  predicate RegMine(l: Link, q: nat, g: Reg) {
    g.id == l.id || Names(g.onFulfilled, l.npm) || Names(g.onRejected, l.npm) ==> q == l.p && g == l.Registration()
  }

  predicate TaskMine(s: Loop, l: Link, k: Task) {
    match k
    case Call(id, a, r) =>
      id == l.id || Names(a, l.npm) ==>
        id == l.id && a == l.Registration().For(r) && StateOf(s, l.p) == Some(r)
    case Finish(q, r) => q == l.npm ==> StateOf(s, l.p) == Some(r) && Runs(l.given, r) && l.id in s.fired
    case Wire(_) => true
  }

  predicate RegsMine(ps: seq<Promise>, l: Link) {
    forall q, g | 0 <= q < |ps| && g in ps[q].regs :: RegMine(l, q, g)
  }

  predicate TasksMine(s: Loop, l: Link) {
    forall k | k in s.stack :: TaskMine(s, l, k)
  }

  /** What is still to come for the call of then; due says that the promise is about to be settled. */
  predicate Progress(s: Loop, l: Link, due: bool)
    requires l.p < |s.promises|
  {
    match StateOf(s, l.p)
    case None => l.Registration() in s.promises[l.p].regs && l.id !in s.fired && StateOf(s, l.npm).None?
    case Some(r) =>
      && (l.id !in s.fired ==> Call(l.id, l.Registration().For(r), r) in s.stack && StateOf(s, l.npm).None?)
      && (l.id in s.fired && StateOf(s, l.npm).None? && !due ==> Finish(l.npm, r) in s.stack)
      && (StateOf(s, l.npm).Some? ==> StateOf(s, l.npm) == Some(ThenResult(l.given, r)))
  }

  predicate Linked(s: Loop, l: Link, due: bool) {
    && l.p < l.npm < |s.promises| && s.promises[l.npm].owner.None? && l.id < s.next
    && RegsMine(s.promises, l) && TasksMine(s, l)
    && Progress(s, l, due)
  }

  lemma TaskMineKept(s: Loop, s': Loop, l: Link, k: Task)
    requires TaskMine(s, l, k) && (StateOf(s, l.p).Some? ==> StateOf(s', l.p) == StateOf(s, l.p))
    requires l.id in s.fired ==> l.id in s'.fired
    ensures TaskMine(s', l, k)
  {
  }

  lemma SettleLinked(s: Loop, q: nat, r: Result, l: Link, due: bool)
    requires Wf(s) && q < |s.promises| && Linked(s, l, due)
    requires due ==> q == l.npm
    requires q == l.npm ==> l.id in s.fired
    requires q == l.npm ==> StateOf(s, l.p).Some? && r == ThenResult(l.given, StateOf(s, l.p).value)
    ensures Linked(Settle(s, q, r), l, false)
  {
    hide Wf;
    if s.promises[q].state.None? {
      var s' := Settle(s, q, r);
      var calls := Calls(s.promises[q].regs, r);
      forall k | k in s'.stack ensures TaskMine(s', l, k) {
        if k in s.stack {
          TaskMineKept(s, s', l, k);
        } else {
          var i :| 0 <= i < |calls| && calls[i] == k;
          assert RegMine(l, q, s.promises[q].regs[i]);
        }
      }
      if q == l.p {
        var i :| 0 <= i < |s.promises[q].regs| && s.promises[q].regs[i] == l.Registration();
        assert calls[i] in s'.stack;
      }
      assert RegsMine(s'.promises, l);
    }
  }

  lemma RegisterLinked(s: Loop, q: nat, g: Reg, l: Link)
    requires Wf(s) && q < |s.promises| && Linked(s, l, false)
    requires ActionWf(|s.promises|, s.joins, g.onFulfilled) && ActionWf(|s.promises|, s.joins, g.onRejected)
    requires g.id != l.id && !Names(g.onFulfilled, l.npm) && !Names(g.onRejected, l.npm)
    ensures Linked(Register(s, q, g), l, false)
  {
    hide Wf;
    var s' := Register(s, q, g);
    forall k | k in s'.stack ensures TaskMine(s', l, k) {
      if k in s.stack {
        TaskMineKept(s, s', l, k);
      }
    }
  }

  /** Other fields make no difference. */
  lemma SameLinked(s: Loop, s': Loop, l: Link)
    requires Linked(s, l, false) && s'.next >= s.next && s'.fired == s.fired
    requires |s'.promises| >= |s.promises| && s'.promises[..|s.promises|] == s.promises
    requires forall q | |s.promises| <= q < |s'.promises| :: s'.promises[q].regs == []
    requires forall k | k in s.stack :: k in s'.stack
    requires forall k | k in s'.stack && k !in s.stack :: TaskMine(s', l, k)
    ensures Linked(s', l, false)
  {
    assert forall q | 0 <= q < |s.promises| :: s'.promises[q] == s.promises[q];
    forall k | k in s'.stack ensures TaskMine(s', l, k) {
      if k in s.stack {
        TaskMineKept(s, s', l, k);
      }
    }
  }

  /** Taking the top off the stack leaves the promise to be settled if that was what did it. */
  lemma PopLinked(s: Loop, l: Link)
    requires Wf(s) && s.stack != [] && Linked(s, l, false)
    ensures TaskMine(s, l, s.stack[0])
    ensures l.id in s.fired ==> l.id in Pop(s).fired
    ensures s.stack[0].Call? ==> s.stack[0].id in Pop(s).fired
    ensures var k := s.stack[0];
      Linked(Pop(s), l, (k.Call? && k.id == l.id) || (k.Finish? && k.npm == l.npm))
  {
    hide Wf;
    var s', k := Pop(s), s.stack[0];
    assert forall t | t in s.stack && t != k :: t in s'.stack;
    assert forall f | f in s.fired :: f in s'.fired;
    assert k.Call? ==> s'.fired[|s'.fired| - 1] == k.id;
    forall t | t in s'.stack ensures TaskMine(s', l, t) {
      TaskMineKept(s, s', l, t);
    }
  }

  /** No join has the promise as its own. */
  lemma TargetNotMine(s: Loop, l: Link, j: nat)
    requires Inv(s) && l.npm < |s.promises| && s.promises[l.npm].owner.None? && j < |s.joins|
    ensures s.joins[j].target < |s.promises| && s.joins[j].target != l.npm
  {
    assert JoinOk(s, j, Nobody);
  }

  lemma WireLinked(s: Loop, j: nat, l: Link)
    requires Wf(s) && j < |s.joins| && Linked(s, l, false) && s.joins[j].target != l.npm
    ensures Linked(WireNext(s, j), l, false)
  {
    var jn := s.joins[j];
    if |jn.ids| < |jn.inputs| {
      var s1 := s.(joins := s.joins[j := jn.(ids := jn.ids + [s.next])], next := s.next + 1,
        stack := [Wire(j)] + s.stack);
      assert jn.inputs[|jn.ids|] in jn.inputs;
      assert Wf(s1);
      hide Linked, Register;
      SameLinkedWire(s, s1, j, l);
      RegisterLinked(s1, jn.inputs[|jn.ids|], Reg(s.next, Store(j, |jn.ids|), Pass(jn.target)), l);
    }
  }

  lemma SameLinkedWire(s: Loop, s1: Loop, j: nat, l: Link)
    requires Linked(s, l, false)
    requires s1 == s.(joins := s1.joins, next := s.next + 1, stack := [Wire(j)] + s.stack)
    ensures Linked(s1, l, false) && l.id < s.next
  {
    SameLinked(s, s1, l);
  }

  lemma StoreLinked(s: Loop, j: nat, i: nat, v: Value, l: Link)
    requires Wf(s) && j < |s.joins| && i < |s.joins[j].inputs| && Linked(s, l, false) && s.joins[j].target != l.npm
    ensures Linked(StoreValue(s, j, i, v), l, false)
  {
    hide Settle;
    var s1 := Fill(s, j, i, v);
    SameLinked(s, s1, l);
    if s1.joins[j].count == 0 {
      hide Wf;
      SettleLinked(s1, s1.joins[j].target, Fulfilled(Values(Unwrap(s1.joins[j].results))), l, false);
    }
  }

  lemma RunLinked(s: Loop, l: Link)
    requires Inv(s) && s.stack != [] && Linked(s, l, false)
    ensures Linked(Run(s), l, false)
  {
    hide OnePlace, TasksOk, JoinsOk, Settle, WireNext, StoreValue, Linked;
    PopLinked(s, l);
    var s1, k := Pop(s), s.stack[0];
    match k {
      case Finish(q, r) =>
        LinkedMine(s1, l, q == l.npm);
        SettleLinked(s1, q, Bare(r), l, q == l.npm);
      case Wire(j) =>
        LinkedMine(s, l, false);
        TargetNotMine(s, l, j);
        WireLinked(s1, j, l);
      case Call(id, Handler(q), r) =>
        HandlerLinked(s1, l, id, q, r);
      case Call(id, Pass(q), r) =>
        SettleLinked(s1, q, r, l, id == l.id);
      case Call(id, Store(j, i), r) =>
        LinkedMine(s, l, false);
        TargetNotMine(s, l, j);
        if r.Fulfilled? {
          StoreLinked(s1, j, i, r.value, l);
        }
    }
  }

  lemma LinkedMine(s: Loop, l: Link, due: bool)
    requires Linked(s, l, due)
    ensures l.p < l.npm < |s.promises| && s.promises[l.npm].owner.None? && l.id < s.next
    ensures l.id in s.fired ==> StateOf(s, l.p).Some?
  {
  }

  /** The handler is running: it settles the promise when it is through. */
  lemma HandlerLinked(s: Loop, l: Link, id: nat, q: nat, r: Result)
    requires Wf(s) && Linked(s, l, id == l.id) && q < |s.promises|
    requires TaskMine(s, l, Call(id, Handler(q), r)) && id in s.fired
    ensures Linked(Push(s, Finish(q, r)), l, false)
  {
    hide Wf;
    var s' := Push(s, Finish(q, r));
    assert Finish(q, r) in s'.stack;
    assert forall k | k in s.stack :: k in s'.stack;
    forall k | k in s'.stack ensures TaskMine(s', l, k) {
      if k in s.stack {
        TaskMineKept(s, s', l, k);
      }
    }
  }

  /** Room for the promise that another call of then returns. */
  lemma RoomLinked(s: Loop, s1: Loop, l: Link)
    requires Wf(s) && Linked(s, l, false) && s1 == Added(s, FRESH).(next := s.next + 1)
    ensures Wf(s1) && Linked(s1, l, false) && l.npm < |s.promises| && l.id < s.next
    ensures |s1.promises| == |s.promises| + 1
  {
    assert Wf(s1);
    hide Wf, Linked;
    LinkedMine(s, l, false);
    SameLinked(s, s1, l);
  }

  lemma ThenLinked(s: Loop, q: nat, given: Given, l: Link)
    requires Wf(s) && q < |s.promises| && Linked(s, l, false)
    ensures Linked(ThenOn(s, q, given), l, false)
  {
    hide Register, Linked, Wf, Reg.For;
    var s1 := Added(s, FRESH).(next := s.next + 1);
    RoomLinked(s, s1, l);
    hide Added;
    RegisterLinked(s1, q, GivenReg(s, |s.promises|, given), l);
  }

  /** Every step keeps the link, as long as nobody else settles the promise. */
  lemma StepLinked(s: Loop, e: Event, l: Link)
    requires Inv(s) && Enabled(s, e) && Linked(s, l, false)
    requires e.SettleIt? ==> e.p != l.npm
    ensures Linked(Step(s, e), l, false)
  {
    hide OnePlace, TasksOk, JoinsOk, Settle, Run, ThenOn;
    match e {
      case New => SameLinked(s, Step(s, e), l);
      case Then(q, given) => ThenLinked(s, q, given, l);
      case All(inputs) => SameLinked(s, Step(s, e), l);
      case SettleIt(q, r) => SettleLinked(s, q, r, l, false);
      case Continue => RunLinked(s, l);
    }
  }

  // ---------- where it starts ----------

  /** Nothing yet names a promise that is only now made, or a registration. */
  lemma NothingNames(s: Loop, l: Link)
    requires Inv(s) && l.npm == |s.promises| && l.id == s.next
    ensures RegsMine(s.promises, l)
    ensures forall k | k in s.stack :: match k
      case Call(id, a, _) => id != l.id && !Names(a, l.npm)
      case Finish(q, _) => q != l.npm
      case Wire(_) => true
    ensures l.id !in s.fired
  {
    hide TasksOk, JoinsOk;
    assert Places(s, l.id) == 0;
    hide OnePlace;
    forall q, g | 0 <= q < |s.promises| && g in s.promises[q].regs ensures RegMine(l, q, g) {
      assert RegsWf(|s.promises|, s.joins, s.promises[q].regs);
      var m :| 0 <= m < |s.promises[q].regs| && s.promises[q].regs[m] == g;
      if g.id == l.id {
        InPromises(s.promises, q, m, l.id);
      }
    }
    forall k | k in s.stack && k.Call? ensures k.id != l.id && !Names(k.action, l.npm) {
      assert TaskWf(|s.promises|, s.joins, k);
      var m :| 0 <= m < |s.stack| && s.stack[m] == k;
      if k.id == l.id {
        InStack(s.stack, m, l.id);
      }
    }
  }

  function LinkOf(s: Loop, p: nat, given: Given): Link {
    Link(p, given, |s.promises|, s.next)
  }

  lemma StartLinked(s: Loop, p: nat, given: Given)
    requires Inv(s) && p < |s.promises|
    ensures Linked(ThenOn(s, p, given), LinkOf(s, p, given), false)
  {
    var l, s' := LinkOf(s, p, given), ThenOn(s, p, given);
    NothingNames(s, l);
    hide Inv, Wf, Places;
    assert GivenReg(s, l.npm, given) == l.Registration();
    forall k | k in s'.stack ensures TaskMine(s', l, k) {
    }
    forall q, g | 0 <= q < |s'.promises| && g in s'.promises[q].regs ensures RegMine(l, q, g) {
      if q < |s.promises| && g in s.promises[q].regs {
        assert RegMine(l, q, g);
      }
    }
  }

  lemma {:induction false} StaysLinked(ss: seq<Loop>, es: seq<Event>, i: nat, j: nat, l: Link)
    requires IsRun(ss, es) && i < j < |ss| && es[i] == Then(l.p, l.given) && l == LinkOf(ss[i], l.p, l.given)
    requires forall k | i < k < j && es[k].SettleIt? :: es[k].p != l.npm
    ensures Linked(ss[j], l, false)
  {
    hide Inv, Enabled, Linked, Run, Settle, ThenOn;
    ReachableInv(ss, es, j - 1);
    assert StepAt(ss, es, j - 1);
    if j == i + 1 {
      assert l.p < |ss[i].promises| by {
        assert Enabled(ss[i], es[i]);
        ThenEnabled(ss[i], l.p, l.given);
      }
      StartLinked(ss[i], l.p, l.given);
    } else {
      StaysLinked(ss, es, i, j - 1, l);
      StepLinked(ss[j - 1], es[j - 1], l);
    }
  }

  lemma ThenEnabled(s: Loop, p: nat, given: Given)
    requires Enabled(s, Then(p, given))
    ensures p < |s.promises|
  {
  }

  // ---------- when the handler runs ----------

  /** In step k of the run the client's function given to this call of then starts, and is given r. */
  ghost predicate HandlerStarts(ss: seq<Loop>, es: seq<Event>, k: nat, npm: nat, r: Result)
  {
    && k < |ss| && k < |es| && es[k] == Continue && ss[k].stack != []
    && exists id :: ss[k].stack[0] == Call(id, Handler(npm), r)
  }

  /** It starts between states i and j. */
  ghost predicate HandlerRan(ss: seq<Loop>, es: seq<Event>, i: nat, j: nat, npm: nat, r: Result) {
    exists k: nat :: i < k < j && HandlerStarts(ss, es, k, npm, r)
  }

  /** The registration fires in step k. */
  predicate FiresAt(ss: seq<Loop>, es: seq<Event>, k: nat, id: nat)
  {
    && k < |ss| && k < |es| && es[k] == Continue && ss[k].stack != [] && ss[k].stack[0].Call? && ss[k].stack[0].id == id
  }

  lemma FiredStep(s: Loop, e: Event, id: nat)
    requires Enabled(s, e)
    ensures id in Step(s, e).fired <==>
      id in s.fired || (e == Continue && s.stack[0].Call? && s.stack[0].id == id)
  {
    hide Wf, Register, Settle;
    if e == Continue {
      FiredRun(s, id);
    } else {
      hide Run;
      FiredElse(s, e);
    }
  }

  lemma FiredElse(s: Loop, e: Event)
    requires Enabled(s, e) && e != Continue
    ensures Step(s, e).fired == s.fired
  {
    hide Wf, Run;
  }

  lemma FiredRun(s: Loop, id: nat)
    requires Wf(s) && s.stack != []
    ensures Run(s).fired == if s.stack[0].Call? then s.fired + [s.stack[0].id] else s.fired
  {
    hide Wf;
  }

  lemma {:induction false} FiredSometime(ss: seq<Loop>, es: seq<Event>, j: nat, id: nat) returns (k: nat)
    requires IsRun(ss, es) && j < |ss| && id in ss[j].fired
    ensures k < j && FiresAt(ss, es, k, id)
  {
    hide Step, Enabled;
    assert StepAt(ss, es, j - 1);
    FiredStep(ss[j - 1], es[j - 1], id);
    if id in ss[j - 1].fired {
      k := FiredSometime(ss, es, j - 1, id);
    } else {
      k := j - 1;
      ContinueEnabled(ss[k]);
    }
  }

  lemma ContinueEnabled(s: Loop)
    ensures Enabled(s, Continue) ==> s.stack != []
  {
  }

  lemma {:induction false} StaysFired(ss: seq<Loop>, es: seq<Event>, k: nat, j: nat, id: nat)
    requires IsRun(ss, es) && k < j < |ss| && FiresAt(ss, es, k, id)
    ensures id in ss[j].fired
  {
    hide Step, Enabled;
    assert StepAt(ss, es, j - 1);
    FiredStep(ss[j - 1], es[j - 1], id);
    if k < j - 1 {
      StaysFired(ss, es, k, j - 1, id);
    }
  }

  /** A registration fires in one step at most. */
  lemma FiresInOneStep(ss: seq<Loop>, es: seq<Event>, k: nat, k': nat, id: nat)
    requires IsRun(ss, es) && k < k' < |ss| && FiresAt(ss, es, k, id)
    ensures !FiresAt(ss, es, k', id)
  {
    hide IsRun;
    if FiresAt(ss, es, k', id) {
      StaysFired(ss, es, k, k', id);
      ReachableInv(ss, es, k');
      InvPlaces(ss[k']);
      OnlyThere(ss[k'], 0);
    }
  }

  /** Before the call of then nothing of it can fire. */
  lemma FiresAfter(ss: seq<Loop>, es: seq<Event>, i: nat, k: nat, l: Link)
    requires IsRun(ss, es) && i < |es| && i < |ss| && es[i].Then? && l == LinkOf(ss[i], l.p, l.given)
    requires FiresAt(ss, es, k, l.id)
    ensures i < k
  {
    hide IsRun;
    if k < i {
      StaysFired(ss, es, k, i, l.id);
      ReachableInv(ss, es, i);
      NothingNames(ss[i], l);
    }
  }

  /** The call of then that a run makes in step i, and what it returned. */
  ghost predicate Returned(ss: seq<Loop>, es: seq<Event>, i: nat, j: nat, p: nat, given: Given, npm: nat) {
    && IsRun(ss, es) && i < j < |ss| && es[i] == Then(p, given) && npm == |ss[i].promises|
    && forall k | i < k < j && es[k].SettleIt? :: es[k].p != npm
  }

  /** What then returns, in every run, once nothing is left to run and if nobody else has settled it.  It is pending
    * exactly as long as p is.  If p is settled with r, it is settled the same way: without a value if a handler is
    * given for r, and with what p has if none is.  A handler given for r has run, with r, in exactly one step of the
    * run, the promise being pending as it starts; a handler for the other way, or while p is pending, has not run. */
  lemma ThenSettles(ss: seq<Loop>, es: seq<Event>, i: nat, j: nat, p: nat, given: Given, npm: nat)
    requires Returned(ss, es, i, j, p, given, npm) && ss[j].stack == []
    ensures StateOf(ss[j], npm) ==
      match StateOf(ss[j], p)
      case None => None
      case Some(Fulfilled(v)) => Some(Fulfilled(if given.OnRejected? then v else Nothing))
      case Some(Rejected(v)) => Some(Rejected(if given.OnFulfilled? then v else Nothing))
    ensures forall r :: HandlerRan(ss, es, i, j, npm, r) <==>
      && StateOf(ss[j], p) == Some(r)
      && (given.Both? || (given.OnFulfilled? <==> r.Fulfilled?))
    ensures forall k: nat, r | i < k < j && HandlerStarts(ss, es, k, npm, r) ::
      && StateOf(ss[k + 1], npm).None?
      && forall k': nat, r' | k < k' < j :: !HandlerStarts(ss, es, k', npm, r')
  {
    hide IsRun, Linked, HandlerStarts;
    var l := LinkOf(ss[i], p, given);
    RunLength(ss, es);
    StaysLinked(ss, es, i, j, l);
    LinkedAtRest(ss[j], l);
    forall r
      ensures HandlerRan(ss, es, i, j, npm, r) <==>
        StateOf(ss[j], p) == Some(r) && Runs(given, r)
    {
      forall k: nat | i < k < j && HandlerStarts(ss, es, k, npm, r)
        ensures StateOf(ss[j], p) == Some(r) && Runs(given, r)
      {
        StartIsFiring(ss, es, i, k, l, r);
        SettlesOnce(ss, es, k, j, p);
      }
      if StateOf(ss[j], p) == Some(r) && Runs(given, r) {
        var k := FiredSometime(ss, es, j, l.id);
        FiresAfter(ss, es, i, k, l);
        FiringStarts(ss, es, i, j, k, l, r);
      }
    }
    forall k: nat, r | i < k < j && HandlerStarts(ss, es, k, npm, r)
      ensures StateOf(ss[k + 1], npm).None?
      ensures forall k': nat, r' | k < k' < j :: !HandlerStarts(ss, es, k', npm, r')
    {
      StartIsFiring(ss, es, i, k, l, r);
      StillPending(ss, es, i, k, l, r);
      forall k': nat, r' | k < k' < j ensures !HandlerStarts(ss, es, k', npm, r') {
        if HandlerStarts(ss, es, k', npm, r') {
          StartIsFiring(ss, es, i, k', l, r');
          FiresInOneStep(ss, es, k, k', l.id);
        }
      }
    }
  }

  lemma RunLength(ss: seq<Loop>, es: seq<Event>)
    requires IsRun(ss, es)
    ensures |ss| == |es| + 1
  {
  }

  lemma LinkedAtRest(s: Loop, l: Link)
    requires Linked(s, l, false) && s.stack == []
    ensures StateOf(s, l.npm) ==
      match StateOf(s, l.p) case None => None case Some(r) => Some(ThenResult(l.given, r))
    ensures StateOf(s, l.p).Some? ==> l.id in s.fired
  {
  }

  /** A handler that starts is the one given, called for what p is settled with. */
  lemma StartIsFiring(ss: seq<Loop>, es: seq<Event>, i: nat, k: nat, l: Link, r: Result)
    requires IsRun(ss, es) && i < k < |ss| && es[i] == Then(l.p, l.given) && l == LinkOf(ss[i], l.p, l.given)
    requires forall m | i < m < k && es[m].SettleIt? :: es[m].p != l.npm
    requires HandlerStarts(ss, es, k, l.npm, r)
    ensures FiresAt(ss, es, k, l.id) && StateOf(ss[k], l.p) == Some(r) && Runs(l.given, r)
  {
    hide IsRun;
    StaysLinked(ss, es, i, k, l);
    assert ss[k].stack[0] in ss[k].stack;
    assert TaskMine(ss[k], l, ss[k].stack[0]);
  }

  /** As the handler starts, the promise it will settle is pending. */
  lemma StillPending(ss: seq<Loop>, es: seq<Event>, i: nat, k: nat, l: Link, r: Result)
    requires IsRun(ss, es) && i < k < |es| && k + 1 < |ss|
    requires es[i] == Then(l.p, l.given) && l == LinkOf(ss[i], l.p, l.given)
    requires forall m | i < m < k && es[m].SettleIt? :: es[m].p != l.npm
    requires HandlerStarts(ss, es, k, l.npm, r) && FiresAt(ss, es, k, l.id)
    ensures StateOf(ss[k + 1], l.npm).None?
  {
    hide Inv, Enabled;
    StaysLinked(ss, es, i, k, l);
    ReachableInv(ss, es, k);
    InvPlaces(ss[k]);
    OnlyThere(ss[k], 0);
    assert StepAt(ss, es, k);
    hide IsRun, Wf, OnePlace;
  }

  lemma FiringStarts(ss: seq<Loop>, es: seq<Event>, i: nat, j: nat, k: nat, l: Link, r: Result)
    requires IsRun(ss, es) && i < k < j < |ss| && es[i] == Then(l.p, l.given) && l == LinkOf(ss[i], l.p, l.given)
    requires forall m | i < m < k && es[m].SettleIt? :: es[m].p != l.npm
    requires FiresAt(ss, es, k, l.id) && StateOf(ss[j], l.p) == Some(r) && Runs(l.given, r)
    ensures HandlerStarts(ss, es, k, l.npm, r)
  {
    hide IsRun;
    StaysLinked(ss, es, i, k, l);
    assert ss[k].stack[0] in ss[k].stack;
    assert TaskMine(ss[k], l, ss[k].stack[0]);
    SettlesOnce(ss, es, k, j, l.p);
  }

  // ---------- the order of callbacks ----------

  predicate WaitsBefore(s: Loop, a: nat, b: nat) {
    exists q, m, k :: 0 <= q < |s.promises| && 0 <= m < k < |s.promises[q].regs|
      && s.promises[q].regs[m].id == a && s.promises[q].regs[k].id == b
  }

  predicate RunsBefore(s: Loop, a: nat, b: nat) {
    exists m, k :: 0 <= m < k < |s.stack|
      && s.stack[m].Call? && s.stack[m].id == a && s.stack[k].Call? && s.stack[k].id == b
  }

  predicate FiredBefore(s: Loop, a: nat, b: nat) {
    exists m, k :: 0 <= m < k < |s.fired| && s.fired[m] == a && s.fired[k] == b
  }

  /** Registration a goes before registration b. */
  predicate Ordered(s: Loop, a: nat, b: nat) {
    WaitsBefore(s, a, b) || RunsBefore(s, a, b) || (a in s.fired && b !in s.fired) || FiredBefore(s, a, b)
  }

  /** The registrations waiting in s wait in s', and what is stacked in s is below anything new. */
  predicate Under(s: Loop, s': Loop) {
    && |s.promises| <= |s'.promises|
    && (forall q {:trigger s'.promises[q]} | 0 <= q < |s.promises| :: s.promises[q].regs <= s'.promises[q].regs)
    && |s.stack| <= |s'.stack| && s'.stack[|s'.stack| - |s.stack|..] == s.stack
    && s'.fired == s.fired
  }

  lemma UnderOrdered(s: Loop, s': Loop, a: nat, b: nat)
    requires Under(s, s') && Ordered(s, a, b)
    ensures Ordered(s', a, b)
  {
    if WaitsBefore(s, a, b) {
      var q, m, k :| 0 <= q < |s.promises| && 0 <= m < k < |s.promises[q].regs|
        && s.promises[q].regs[m].id == a && s.promises[q].regs[k].id == b;
      assert s.promises[q].regs <= s'.promises[q].regs;
      assert s'.promises[q].regs[m].id == a && s'.promises[q].regs[k].id == b;
    } else if RunsBefore(s, a, b) {
      var m, k :| 0 <= m < k < |s.stack|
        && s.stack[m].Call? && s.stack[m].id == a && s.stack[k].Call? && s.stack[k].id == b;
      var more := |s'.stack| - |s.stack|;
      assert s'.stack[more..][m] == s'.stack[more + m] && s'.stack[more..][k] == s'.stack[more + k];
    }
  }

  lemma SettleOrdered(s: Loop, p: nat, r: Result, a: nat, b: nat)
    requires Wf(s) && p < |s.promises| && Ordered(s, a, b)
    ensures Ordered(Settle(s, p, r), a, b)
  {
    hide Wf;
    if s.promises[p].state.None? {
      var s', regs := Settle(s, p, r), s.promises[p].regs;
      assert s'.stack[|regs|..] == s.stack;
      if WaitsBefore(s, a, b) {
        var q, m, k :| 0 <= q < |s.promises| && 0 <= m < k < |s.promises[q].regs|
          && s.promises[q].regs[m].id == a && s.promises[q].regs[k].id == b;
        if q == p {
          assert s'.stack[m] == Call(a, regs[m].For(r), r) && s'.stack[k] == Call(b, regs[k].For(r), r);
        } else {
          assert s'.promises[q].regs[m].id == a && s'.promises[q].regs[k].id == b;
        }
      } else {
        BelowOrdered(s, s', a, b);
      }
    }
  }

  lemma BelowOrdered(s: Loop, s': Loop, a: nat, b: nat)
    requires |s.stack| <= |s'.stack| && s'.stack[|s'.stack| - |s.stack|..] == s.stack && s'.fired == s.fired
    requires Ordered(s, a, b) && !WaitsBefore(s, a, b)
    ensures Ordered(s', a, b)
  {
    var bare, bare' := s.(promises := []), s'.(promises := []);
    assert Ordered(bare, a, b);
    UnderOrdered(bare, bare', a, b);
  }

  lemma PopOrdered(s: Loop, a: nat, b: nat)
    requires Wf(s) && OnePlace(s) && s.stack != [] && Ordered(s, a, b)
    ensures Ordered(Pop(s), a, b)
  {
    hide Wf, OnePlace;
    var s' := Pop(s);
    if WaitsBefore(s, a, b) {
      assert WaitsBefore(s', a, b);
    } else if RunsBefore(s, a, b) {
      var m, k :| 0 <= m < k < |s.stack|
        && s.stack[m].Call? && s.stack[m].id == a && s.stack[k].Call? && s.stack[k].id == b;
      OnlyThere(s, k);
      if m == 0 {
        assert s'.fired[|s.fired|] == a;
      } else {
        assert s'.stack[m - 1] == s.stack[m] && s'.stack[k - 1] == s.stack[k];
      }
    } else if FiredBefore(s, a, b) {
      var m, k :| 0 <= m < k < |s.fired| && s.fired[m] == a && s.fired[k] == b;
      assert s'.fired[m] == a && s'.fired[k] == b;
    } else {
      var m :| 0 <= m < |s.fired| && s.fired[m] == a;
      assert s'.fired[m] == a;
      if s.stack[0].Call? && s.stack[0].id == b {
        assert s'.fired[|s.fired|] == b;
      }
    }
  }

  lemma StoreOrdered(s: Loop, j: nat, i: nat, v: Value, a: nat, b: nat)
    requires Wf(s) && j < |s.joins| && i < |s.joins[j].inputs| && Ordered(s, a, b)
    ensures Ordered(StoreValue(s, j, i, v), a, b)
  {
    hide Settle, Ordered;
    var s1 := Fill(s, j, i, v);
    UnderOrdered(s, s1, a, b);
    if s1.joins[j].count == 0 {
      hide Wf;
      SettleOrdered(s1, s1.joins[j].target, Fulfilled(Values(Unwrap(s1.joins[j].results))), a, b);
    }
  }

  lemma WireOrdered(s: Loop, j: nat, a: nat, b: nat)
    requires Wf(s) && j < |s.joins| && Ordered(s, a, b)
    ensures Ordered(WireNext(s, j), a, b)
  {
    var jn := s.joins[j];
    if |jn.ids| < |jn.inputs| {
      var s1 := s.(joins := s.joins[j := jn.(ids := jn.ids + [s.next])], next := s.next + 1,
        stack := [Wire(j)] + s.stack);
      assert jn.inputs[|jn.ids|] in jn.inputs;
      assert Wf(s1) && ActionWf(|s1.promises|, s1.joins, Store(j, |jn.ids|));
      hide Ordered, Register, Wf;
      assert s1.stack[1..] == s.stack;
      UnderOrdered(s, s1, a, b);
      RegisterOrdered(s1, jn.inputs[|jn.ids|], Reg(s.next, Store(j, |jn.ids|), Pass(jn.target)), a, b);
    }
  }

  lemma RegisterOrdered(s: Loop, p: nat, g: Reg, a: nat, b: nat)
    requires Wf(s) && p < |s.promises| && Ordered(s, a, b)
    requires ActionWf(|s.promises|, s.joins, g.onFulfilled) && ActionWf(|s.promises|, s.joins, g.onRejected)
    ensures Ordered(Register(s, p, g), a, b)
  {
    hide Ordered, Wf;
    UnderOrdered(s, Register(s, p, g), a, b);
  }

  lemma StepOrdered(s: Loop, e: Event, a: nat, b: nat)
    requires Inv(s) && Enabled(s, e) && Ordered(s, a, b)
    ensures Ordered(Step(s, e), a, b)
  {
    hide OnePlace, TasksOk, JoinsOk, Settle, Ordered, StoreValue;
    match e {
      case New => UnderOrdered(s, Step(s, e), a, b);
      case Then(p, given) => UnderOrdered(s, Step(s, e), a, b);
      case All(inputs) => UnderOrdered(s, Step(s, e), a, b);
      case SettleIt(p, r) => SettleOrdered(s, p, r, a, b);
      case Continue =>
        PopOrdered(s, a, b);
        var s1 := Pop(s);
        match s.stack[0] {
          case Finish(p, r) => SettleOrdered(s1, p, Bare(r), a, b);
          case Wire(j) => WireOrdered(s1, j, a, b);
          case Call(_, Handler(p), r) => UnderOrdered(s1, Push(s1, Finish(p, r)), a, b);
          case Call(_, Pass(p), r) => SettleOrdered(s1, p, r, a, b);
          case Call(_, Store(j, i), r) =>
            if r.Fulfilled? {
              StoreOrdered(s1, j, i, r.value, a, b);
            }
        }
    }
  }

  lemma StepOf(ss: seq<Loop>, es: seq<Event>, i: nat)
    requires IsRun(ss, es) && i + 1 < |ss|
    ensures |ss| == |es| + 1 && Enabled(ss[i], es[i]) && ss[i + 1] == Step(ss[i], es[i])
  {
    hide Enabled, Step;
    assert StepAt(ss, es, i);
  }

  lemma {:induction false} StaysOrdered(ss: seq<Loop>, es: seq<Event>, i: nat, j: nat, a: nat, b: nat)
    requires IsRun(ss, es) && i <= j < |ss| && Ordered(ss[i], a, b)
    ensures Ordered(ss[j], a, b)
  {
    if i < j {
      hide IsRun, Inv, Enabled, Ordered, Step;
      ReachableInv(ss, es, j - 1);
      StepOf(ss, es, j - 1);
      StaysOrdered(ss, es, i, j - 1, a, b);
      StepOrdered(ss[j - 1], es[j - 1], a, b);
    }
  }

  /** Callbacks that have waited on one promise fire in the order of their registration, whatever they settle or
    * register in between: once the later of two has fired, the earlier has, before it. */
  lemma FireInOrder(ss: seq<Loop>, es: seq<Event>, i: nat, j: nat, p: nat, m: nat, k: nat)
    requires IsRun(ss, es) && i <= j < |ss| && p < |ss[i].promises| && m < k < |ss[i].promises[p].regs|
    ensures var a, b := ss[i].promises[p].regs[m].id, ss[i].promises[p].regs[k].id;
      b in ss[j].fired ==> FiredBefore(ss[j], a, b)
  {
    hide IsRun;
    var a, b := ss[i].promises[p].regs[m].id, ss[i].promises[p].regs[k].id;
    assert WaitsBefore(ss[i], a, b);
    StaysOrdered(ss, es, i, j, a, b);
    if b in ss[j].fired {
      ReachableInv(ss, es, j);
      FiredElsewhere(ss[j], a, b);
    }
  }

  /** What has fired neither waits nor is about to run. */
  lemma FiredElsewhere(s: Loop, a: nat, b: nat)
    requires Inv(s) && b in s.fired
    ensures !WaitsBefore(s, a, b) && !RunsBefore(s, a, b)
  {
    InvPlaces(s);
    hide Inv, OnePlace;
    FiredThere(s, b);
    if WaitsBefore(s, a, b) {
      var q, m, k :| 0 <= q < |s.promises| && 0 <= m < k < |s.promises[q].regs|
        && s.promises[q].regs[m].id == a && s.promises[q].regs[k].id == b;
      InPromises(s.promises, q, k, b);
    }
    if RunsBefore(s, a, b) {
      var m, k :| 0 <= m < k < |s.stack|
        && s.stack[m].Call? && s.stack[m].id == a && s.stack[k].Call? && s.stack[k].id == b;
      OnlyThere(s, k);
    }
  }
}
