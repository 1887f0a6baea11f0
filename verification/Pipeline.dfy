/** The proposer's pipeline: blocks proposed ahead of their parents' certificates (piped_queue), and those
  * among them whose own certificate came early (rdy_queue).  A block's erased entry is taken by value, and
  * the front of the queue is looked at only if there is one. */
module Pipeline {
  import opened Blocks

  // ---------- queues ----------

  /** Erasing the first occurrence of x. */
  function Erase(s: seq<Block>, x: Block): seq<Block> {
    if s == [] then [] else if s[0] == x then s[1..] else [s[0]] + Erase(s[1..], x)
  }

  /** The first ready block whose parent is c. */
  function FirstChild(rdy: seq<Block>, c: Block): (r: Option<Block>)
    ensures r.Some? ==> r.value in rdy && IsChild(r.value, c)
    ensures r.None? ==> forall x | x in rdy :: !IsChild(x, c)
  {
    if rdy == [] then None
    else if IsChild(rdy[0], c) then Some(rdy[0])
    else FirstChild(rdy[1..], c)
  }

  predicate IsChild(b: Block, c: Block) {
    b.HasParent() && b.parents[0] == c
  }

  predicate Increasing(s: seq<Block>) {
    forall i, j | 0 <= i < j < |s| :: Height(s[i]) < Height(s[j])
  }

  predicate Distinct(s: seq<Block>) {
    forall i, j | 0 <= i < j < |s| :: s[i] != s[j]
  }

  lemma IncreasingDistinct(s: seq<Block>)
    requires Increasing(s)
    ensures Distinct(s)
  {
  }

  /** What is left of s without the blocks gone, in order. */
  function Without(s: seq<Block>, gone: set<Block>): (r: seq<Block>)
    ensures |r| <= |s|
    ensures forall x :: x in r <==> x in s && x !in gone
  {
    if s == [] then []
    else if s[0] in gone then Without(s[1..], gone)
    else [s[0]] + Without(s[1..], gone)
  }

  lemma {:induction false} EraseIsWithout(s: seq<Block>, x: Block)
    requires Distinct(s)
    ensures Erase(s, x) == Without(s, {x})
  {
    if s != [] {
      DistinctTail(s);
      EraseIsWithout(s[1..], x);
      if s[0] == x {
        WithoutNone(s[1..], {x});
      }
    }
  }

  /** Erasing keeps the order. */
  lemma {:induction false} EraseOrder(s: seq<Block>, x: Block)
    requires Distinct(s)
    ensures Distinct(Erase(s, x))
    ensures Increasing(s) ==> Increasing(Erase(s, x))
  {
    if s != [] {
      hide Distinct, Increasing, Without, Height;
      DistinctTail(s);
      if s[0] != x {
        EraseOrder(s[1..], x);
        EraseIsWithout(s[1..], x);
        DistinctCons(s[0], Erase(s[1..], x));
      }
    }
  }

  lemma DistinctCons(x: Block, r: seq<Block>)
    requires Distinct(r) && x !in r
    ensures Distinct([x] + r)
    ensures Increasing(r) && (forall y | y in r :: Height(x) < Height(y)) ==> Increasing([x] + r)
  {
    hide Height;
  }

  lemma DistinctTail(s: seq<Block>)
    requires s != [] && Distinct(s)
    ensures Distinct(s[1..]) && s[0] !in s[1..]
    ensures Increasing(s) ==> Increasing(s[1..]) && forall x | x in s[1..] :: Height(s[0]) < Height(x)
  {
  }

  lemma {:induction false} WithoutNone(s: seq<Block>, gone: set<Block>)
    requires forall x | x in s :: x !in gone
    ensures Without(s, gone) == s
  {
    if s != [] {
      assert s[0] in s;
      WithoutNone(s[1..], gone);
    }
  }

  lemma {:induction false} WithoutTwice(s: seq<Block>, a: set<Block>, b: set<Block>)
    ensures Without(Without(s, a), b) == Without(s, a + b)
  {
    if s != [] {
      WithoutTwice(s[1..], a, b);
    }
  }

  // ---------- the pipeline's state ----------

  /** stored: the blocks made so far.  completed: those whose certificate has its quorum.
    * done: the blocks passed to update_hqc and on_qc_finish, in order. */
  datatype Pipe = Pipe(piped: seq<Block>, rdy: seq<Block>, hqc: Block,
                       stored: set<Block>, completed: set<Block>, done: seq<Block>)

  function Taller(a: Block, b: Block): Block {
    if Height(b) > Height(a) then b else a
  }

  /** update_hqc and on_qc_finish. */
  function Finish(p: Pipe, b: Block): Pipe {
    p.(hqc := Taller(p.hqc, b), done := p.done + [b])
  }

  /** The ready blocks that follow curr, parent by parent. */
  function Drain(p: Pipe, curr: Block): Pipe
    decreases |p.rdy|
  {
    var r := FirstChild(p.rdy, curr);
    if r.None? then p
    else
      EraseShrinks(p.rdy, r.value);
      Drain(Finish(p.(rdy := Erase(p.rdy, r.value), piped := Erase(p.piped, r.value)), r.value), r.value)
  }

  lemma {:induction false} EraseShrinks(s: seq<Block>, x: Block)
    requires x in s
    ensures |Erase(s, x)| == |s| - 1
  {
    if s[0] != x {
      EraseShrinks(s[1..], x);
    }
  }

  /** What the drain finishes. */
  function Drained(rdy: seq<Block>, curr: Block): seq<Block>
    decreases |rdy|
  {
    var r := FirstChild(rdy, curr);
    if r.None? then []
    else
      EraseShrinks(rdy, r.value);
      [r.value] + Drained(Erase(rdy, r.value), r.value)
  }

  predicate IsLine(curr: Block, c: seq<Block>)
    decreases |c|
  {
    c == [] || (IsChild(c[0], curr) && IsLine(c[0], c[1..]))
  }

  function Last(curr: Block, c: seq<Block>): Block {
    if c == [] then curr else c[|c| - 1]
  }

  function Elems(c: seq<Block>): set<Block> {
    set x | x in c
  }

  /** A ready block whose parent is piped is itself still piped. */
  predicate ReadyPiped(piped: seq<Block>, rdy: seq<Block>) {
    forall r | r in rdy && r.HasParent() && r.parents[0] in piped :: r in piped
  }

  /** The same for the block just taken off the pipeline. */
  predicate ReadyPipedAt(piped: seq<Block>, rdy: seq<Block>, curr: Block) {
    && ReadyPiped(piped, rdy)
    && forall r | r in rdy && IsChild(r, curr) :: r in piped
  }

  /** One turn of the drain keeps what the next one needs. */
  lemma DrainTurn(piped: seq<Block>, rdy: seq<Block>, curr: Block, r: Block)
    requires Increasing(piped) && Distinct(rdy) && ReadyPipedAt(piped, rdy, curr)
    requires r in rdy && IsChild(r, curr)
    ensures r in piped
    ensures Increasing(Erase(piped, r)) && Distinct(Erase(rdy, r)) && ReadyPipedAt(Erase(piped, r), Erase(rdy, r), r)
    ensures Erase(piped, r) == Without(piped, {r}) && Erase(rdy, r) == Without(rdy, {r})
  {
    IncreasingDistinct(piped);
    EraseIsWithout(piped, r);
    EraseIsWithout(rdy, r);
    EraseOrder(piped, r);
    EraseOrder(rdy, r);
    hide Erase, Height;
    forall x | x in Without(rdy, {r}) && x.HasParent() && (x.parents[0] == r || x.parents[0] in Without(piped, {r}))
      ensures x in Without(piped, {r})
    {
      assert x in rdy && x.parents[0] in piped;
    }
  }

  /** How a drain from curr that finishes the blocks c takes p to q: c is one parent line from curr; each
    * of its blocks was ready and piped and is taken out of both queues, which otherwise stay as they are; no
    * ready block follows the last one; and the highest certified block is the taller of the old one and
    * the end of the line. */
  predicate DrainsTo(p: Pipe, q: Pipe, curr: Block, c: seq<Block>) {
    && IsLine(curr, c)
    && (forall x | x in c :: x in p.rdy && x in p.piped)
    && q.piped == Without(p.piped, Elems(c)) && q.rdy == Without(p.rdy, Elems(c))
    && (forall x | x in q.rdy :: !IsChild(x, Last(curr, c)))
    && q.done == p.done + c
    && q.stored == p.stored && q.completed == p.completed
    && q.hqc == (if c == [] then p.hqc else Taller(p.hqc, Last(curr, c)))
  }

  lemma DrainsMore(p: Pipe, p1: Pipe, q: Pipe, curr: Block, b: Block, c: seq<Block>)
    requires IsChild(b, curr) && b in p.rdy && b in p.piped
    requires p1 == Finish(p.(rdy := Without(p.rdy, {b}), piped := Without(p.piped, {b})), b)
    requires DrainsTo(p1, q, b, c)
    ensures DrainsTo(p, q, curr, [b] + c)
  {
    hide Without, IsLine, Height, Elems, Last, Taller, IsChild;
    LineGrows(curr, b, c);
    TallerEnd(p.hqc, b, c);
    ElemsCons(b, c);
    WithoutTwice(p.piped, {b}, Elems(c));
    WithoutTwice(p.rdy, {b}, Elems(c));
    assert p.done + [b] + c == p.done + ([b] + c);
    assert [b] + c != [];
  }

  lemma ElemsCons(b: Block, c: seq<Block>)
    ensures Elems([b] + c) == {b} + Elems(c)
  {
  }

  lemma {:induction false} DrainEffect(p: Pipe, curr: Block)
    requires Increasing(p.piped) && Distinct(p.rdy) && ReadyPipedAt(p.piped, p.rdy, curr)
    ensures DrainsTo(p, Drain(p, curr), curr, Drained(p.rdy, curr))
    decreases |p.rdy|
  {
    hide Erase, Without, DrainsTo, ReadyPiped, ReadyPipedAt, Increasing, Distinct, Height, IsChild, Taller;
    var r := FirstChild(p.rdy, curr);
    if r.None? {
      DrainsNothing(p, curr);
    } else {
      var b := r.value;
      DrainTurn(p.piped, p.rdy, curr, b);
      EraseShrinks(p.rdy, b);
      var p1 := Finish(p.(rdy := Erase(p.rdy, b), piped := Erase(p.piped, b)), b);
      assert Drain(p, curr) == Drain(p1, b);
      assert Drained(p.rdy, curr) == [b] + Drained(p1.rdy, b);
      hide Drain, Drained, FirstChild;
      DrainEffect(p1, b);
      DrainsMore(p, p1, Drain(p1, b), curr, b, Drained(p1.rdy, b));
    }
  }

  lemma DrainsNothing(p: Pipe, curr: Block)
    requires forall x | x in p.rdy :: !IsChild(x, curr)
    ensures DrainsTo(p, p, curr, [])
  {
    hide Without, Height, IsChild, Taller;
    WithoutNone(p.piped, {});
    WithoutNone(p.rdy, {});
    assert Elems([]) == {} && p.done + [] == p.done;
  }

  /** Finishing a line one by one leaves what finishing its end would. */
  lemma TallerEnd(hqc: Block, b: Block, c: seq<Block>)
    requires IsLine(b, c)
    ensures (if c == [] then Taller(hqc, b) else Taller(Taller(hqc, b), Last(b, c))) == Taller(hqc, Last(b, c))
  {
    LineHeights(b, c);
  }

  lemma LineGrows(curr: Block, b: Block, c: seq<Block>)
    requires IsChild(b, curr) && IsLine(b, c)
    ensures IsLine(curr, [b] + c) && Last(curr, [b] + c) == Last(b, c)
  {
    assert ([b] + c)[1..] == c;
  }

  /** Heights rise by one along a line, so no block is in it twice. */
  lemma {:induction false} LineHeights(curr: Block, c: seq<Block>)
    requires IsLine(curr, c)
    ensures forall i | 0 <= i < |c| :: Height(c[i]) == Height(curr) + 1 + i
    ensures Increasing(c) && curr !in c
    ensures Height(Last(curr, c)) == Height(curr) + |c|
    decreases |c|
  {
    if c != [] {
      var rest := c[1..];
      LineHeights(c[0], rest);
      forall i | 0 <= i < |c| ensures Height(c[i]) == Height(curr) + 1 + i {
        if i > 0 {
          assert c[i] == rest[i - 1];
        }
      }
    }
  }

  // ---------- events ----------

  /** What the pacemaker hands to a beat: its tail, its last proposal, the certificate to carry, the commands. */
  datatype Offer = Offer(tail: Block, current: Block, qc: Cert, cmds: seq<Command>, tooSoon: bool)

  datatype Event =
    | Beat(offer: Offer)          // the proposer may propose
    | Complete(b: Block)          // a relay gives b its quorum, at a block that may be piped
    | Failed(b: Block)            // a relay gives b its quorum, but the certificate does not verify
    | Again(b: Block)             // a relay for a block that has its quorum already
    | Direct(b: Block)            // a single vote leaves b with its quorum, for the first time or once more

  /** The scan of the whole queue for the tallest block. */
  function Scan(highest: Block, s: seq<Block>): Block
    decreases |s|
  {
    if s == [] then highest else Scan(if Height(s[0]) > Height(highest) then s[0] else highest, s[1..])
  }

  function PipedParents(p: Pipe, o: Offer): seq<Block> {
    var highest := Scan(o.current, p.piped);
    if Height(o.tail) < Height(highest) then [highest, o.tail] else [o.tail]
  }

  function NormalParents(p: Pipe, o: Offer): seq<Block> {
    if p.piped != [] && Height(o.tail) <= Height(p.piped[|p.piped| - 1]) then [p.piped[|p.piped| - 1],
      o.tail] else [o.tail]
  }

  /** The block a beat makes and whether it is a piped one, if it proposes at all. */
  function Proposed(asyncBlocks: nat, p: Pipe, o: Offer): Option<(Block, bool)> {
    if |p.piped| > asyncBlocks + 1 then None
    else if |p.piped| < asyncBlocks && o.current != Genesis then
      if p.piped == [] && o.tooSoon then None
      else Some((Block(PipedParents(p, o), o.cmds, o.qc, []), true))
    else Some((Block(NormalParents(p, o), o.cmds, o.qc, []), false))
  }

  function AfterBeat(asyncBlocks: nat, p: Pipe, o: Offer): Pipe {
    match Proposed(asyncBlocks, p, o)
    case None => p
    case Some((b, piped)) =>
      var p1 := p.(stored := p.stored + {b});
      if piped then p1.(piped := p.piped + [b]) else p1
  }

  function AfterComplete(p: Pipe, b: Block): Pipe {
    var p1 := p.(completed := p.completed + {b});
    if p.piped == [] then Finish(p1, b)
    else if p.piped[0] == b then
      var p2 := Finish(p1.(piped := p.piped[1..]), b);
      if p2.rdy != [] then Drain(p2, b) else p2
    else if b in p.piped then p1.(rdy := p.rdy + [b])
    else Finish(p1, b)
  }

  function AfterAgain(p: Pipe, b: Block): Pipe {
    if p.piped != [] && p.piped[0] == b then
      var p1 := p.(piped := p.piped[1..]);
      if p1.rdy != [] then Drain(p1, b) else p1
    else p
  }

  function Step(asyncBlocks: nat, p: Pipe, e: Event): Pipe {
    match e
    case Beat(o) => AfterBeat(asyncBlocks, p, o)
    case Complete(b) => AfterComplete(p, b)
    case Failed(b) => p.(completed := p.completed + {b})
    case Again(b) => AfterAgain(p, b)
    case Direct(b) => Finish(p.(completed := p.completed + {b}), b)
  }

  /** The pacemaker offers known blocks, and a proposal is not a block made before; a relay completes a
    * certificate only if it had no quorum yet, and single votes do not look. */
  predicate Enabled(asyncBlocks: nat, p: Pipe, e: Event) {
    match e
    case Beat(o) =>
      && o.tail in p.stored && o.current in p.stored
      && (match Proposed(asyncBlocks, p, o)
          case None => true
          case Some((b, _)) => b !in p.stored)
    case Complete(b) => b in p.stored && b !in p.completed
    case Failed(b) => b in p.stored && b !in p.completed
    case Again(b) => b in p.completed
    case Direct(b) => b in p.stored
  }

  // ---------- the invariant ----------

  /** Every block's first parent has been made too. */
  predicate Closed(stored: set<Block>) {
    forall b | b in stored && b.HasParent() :: b.parents[0] in stored
  }

  predicate Inv(asyncBlocks: nat, p: Pipe) {
    && |p.piped| <= asyncBlocks
    && Increasing(p.piped)
    && (forall b | b in p.piped :: b in p.stored)
    && Closed(p.stored)
    && Distinct(p.rdy)
    && (forall b | b in p.rdy :: b in p.completed)
    && p.completed <= p.stored
    && ReadyPiped(p.piped, p.rdy)
  }

  function Initial(): Pipe {
    Pipe([], [], Genesis, {Genesis}, {}, [])
  }

  lemma {:induction false} ScanTallest(highest: Block, s: seq<Block>)
    ensures var t := Scan(highest, s);
      && (t == highest || t in s)
      && Height(t) >= Height(highest)
      && forall x | x in s :: Height(x) <= Height(t)
    decreases |s|
  {
    if s != [] {
      ScanTallest(if Height(s[0]) > Height(highest) then s[0] else highest, s[1..]);
    }
  }

  /** With the queue in order, the full scan finds the last entry, or the block it started from. */
  lemma ScanIsBack(highest: Block, s: seq<Block>)
    requires Increasing(s)
    ensures Scan(highest, s) ==
      if s != [] && Height(s[|s| - 1]) > Height(highest) then s[|s| - 1] else highest
  {
    ScanTallest(highest, s);
    if s != [] && Height(s[|s| - 1]) > Height(highest) {
      var t := Scan(highest, s);
      assert s[|s| - 1] in s;
      if t in s {
        var i :| 0 <= i < |s| && s[i] == t;
      }
    } else {
      ScanLow(highest, s);
    }
  }

  lemma {:induction false} ScanLow(highest: Block, s: seq<Block>)
    requires s != [] ==> Height(s[|s| - 1]) <= Height(highest)
    requires Increasing(s)
    ensures Scan(highest, s) == highest
  {
    if s != [] {
      assert Height(s[0]) <= Height(s[|s| - 1]);
      if |s| > 1 {
        assert s[1..][|s[1..]| - 1] == s[|s| - 1];
      }
      ScanLow(highest, s[1..]);
    }
  }

  /** A beat keeps the invariant: the new block is taller than everything piped. */
  lemma BeatInv(asyncBlocks: nat, p: Pipe, o: Offer)
    requires Inv(asyncBlocks, p) && Enabled(asyncBlocks, p, Beat(o))
    ensures Inv(asyncBlocks, AfterBeat(asyncBlocks, p, o))
  {
    match Proposed(asyncBlocks, p, o) {
      case None =>
      case Some((b, piped)) =>
        ScanTallest(o.current, p.piped);
        ParentLower(b);
        hide Scan, Height, Distinct;
        assert b.parents[0] in p.stored;
        StoreMore(asyncBlocks, p, b);
        if piped {
          assert forall x | x in p.piped :: Height(x) <= Height(b.parents[0]);
          hide Proposed, Enabled;
          IncreasingSnoc(p.piped, b);
          PipeMore(p.piped, p.rdy, b);
        }
    }
  }

  lemma StoreMore(asyncBlocks: nat, p: Pipe, b: Block)
    requires Inv(asyncBlocks, p) && b.HasParent() && b.parents[0] in p.stored
    ensures Inv(asyncBlocks, p.(stored := p.stored + {b}))
    ensures b !in p.stored ==> forall r | r in p.rdy :: r != b && (r.HasParent() ==> r.parents[0] != b)
  {
    hide Increasing, Distinct, ReadyPiped;
  }

  lemma IncreasingSnoc(s: seq<Block>, b: Block)
    requires Increasing(s) && forall x | x in s :: Height(x) < Height(b)
    ensures Increasing(s + [b])
  {
    hide Height;
  }

  lemma PipeMore(piped: seq<Block>, rdy: seq<Block>, b: Block)
    requires ReadyPiped(piped, rdy)
    requires forall r | r in rdy :: r != b && (r.HasParent() ==> r.parents[0] != b)
    ensures ReadyPiped(piped + [b], rdy)
  {
  }

  lemma ParentLower(b: Block)
    requires b.HasParent()
    ensures Height(b.parents[0]) < Height(b)
  {
  }

  /** Popping the front leaves the order, and what a drain from the front needs. */
  lemma PopFront(asyncBlocks: nat, p: Pipe)
    requires Inv(asyncBlocks, p) && p.piped != []
    ensures Increasing(p.piped[1..]) && |p.piped[1..]| < asyncBlocks
    ensures p.piped[0] !in p.piped[1..]
    ensures ReadyPipedAt(p.piped[1..], p.rdy, p.piped[0])
  {
    IncreasingDistinct(p.piped);
    DistinctTail(p.piped);
    var b := p.piped[0];
    forall r | r in p.rdy && r.HasParent() && (r.parents[0] == b || r.parents[0] in p.piped[1..])
      ensures r in p.piped[1..]
    {
      ParentLower(r);
      assert r in p.piped;
      if r == b {
        assert false;
      }
    }
  }

  /** After a drain the invariant holds, the drained block no longer being piped. */
  lemma DrainInv(asyncBlocks: nat, p: Pipe, curr: Block)
    requires |p.piped| <= asyncBlocks && Increasing(p.piped) && Distinct(p.rdy) && ReadyPipedAt(p.piped, p.rdy, curr)
    requires (forall b | b in p.piped :: b in p.stored) && Closed(p.stored)
    requires (forall b | b in p.rdy :: b in p.completed) && p.completed <= p.stored
    ensures Inv(asyncBlocks, Drain(p, curr))
    decreases |p.rdy|
  {
    var r := FirstChild(p.rdy, curr);
    if r.Some? {
      var b := r.value;
      DrainTurn(p.piped, p.rdy, curr, b);
      EraseShrinks(p.rdy, b);
      DrainInv(asyncBlocks, Finish(p.(rdy := Erase(p.rdy, b), piped := Erase(p.piped, b)), b), b);
    }
  }

  lemma CompleteInv(asyncBlocks: nat, p: Pipe, b: Block)
    requires Inv(asyncBlocks, p) && Enabled(asyncBlocks, p, Complete(b))
    ensures Inv(asyncBlocks, AfterComplete(p, b))
  {
    if p.piped != [] && p.piped[0] == b {
      PopFront(asyncBlocks, p);
      hide Increasing, Distinct;
      DrainInv(asyncBlocks, Finish(p.(completed := p.completed + {b}, piped := p.piped[1..]), b), b);
    }
  }

  lemma AgainInv(asyncBlocks: nat, p: Pipe, b: Block)
    requires Inv(asyncBlocks, p) && Enabled(asyncBlocks, p, Again(b))
    ensures Inv(asyncBlocks, AfterAgain(p, b))
  {
    if p.piped != [] && p.piped[0] == b {
      PopFront(asyncBlocks, p);
      hide Increasing, Distinct;
      DrainInv(asyncBlocks, p.(piped := p.piped[1..]), b);
    }
  }

  lemma StepInv(asyncBlocks: nat, p: Pipe, e: Event)
    requires Inv(asyncBlocks, p) && Enabled(asyncBlocks, p, e)
    ensures Inv(asyncBlocks, Step(asyncBlocks, p, e))
  {
    match e {
      case Beat(o) => BeatInv(asyncBlocks, p, o);
      case Complete(b) => CompleteInv(asyncBlocks, p, b);
      case Failed(b) =>
      case Again(b) => AgainInv(asyncBlocks, p, b);
      case Direct(b) =>
    }
  }

  // ---------- runs ----------

  ghost predicate StepAt(asyncBlocks: nat, ps: seq<Pipe>, es: seq<Event>, i: nat)
    requires |ps| == |es| + 1 && i < |es|
  {
    Enabled(asyncBlocks, ps[i], es[i]) && ps[i + 1] == Step(asyncBlocks, ps[i], es[i])
  }

  ghost predicate IsRun(asyncBlocks: nat, ps: seq<Pipe>, es: seq<Event>) {
    && |ps| == |es| + 1
    && ps[0] == Initial()
    && forall i {:trigger StepAt(asyncBlocks, ps, es, i)} | 0 <= i < |es| :: StepAt(asyncBlocks, ps, es, i)
  }

  lemma {:induction false} RunInv(asyncBlocks: nat, ps: seq<Pipe>, es: seq<Event>, i: nat)
    requires IsRun(asyncBlocks, ps, es) && i < |ps|
    ensures Inv(asyncBlocks, ps[i])
  {
    if i > 0 {
      hide Inv, Step, Enabled;
      RunInv(asyncBlocks, ps, es, i - 1);
      assert StepAt(asyncBlocks, ps, es, i - 1);
      StepInv(asyncBlocks, ps[i - 1], es[i - 1]);
    }
  }

  /** In every run the pipeline holds at most async_blocks blocks, in strictly increasing height, so the
    * two ways of finding the tallest piped block agree. */
  lemma PipelineOrder(asyncBlocks: nat, ps: seq<Pipe>, es: seq<Event>, i: nat, o: Offer)
    requires IsRun(asyncBlocks, ps, es) && i < |ps|
    ensures |ps[i].piped| <= asyncBlocks && Increasing(ps[i].piped)
    ensures var q := ps[i].piped;
      Scan(o.current, q) == if q != [] && Height(q[|q| - 1]) > Height(o.current) then q[|q| - 1] else o.current
    ensures Height(o.current) <= Height(o.tail) && Height(Scan(o.current, ps[i].piped)) != Height(o.tail) ==>
      PipedParents(ps[i], o) == NormalParents(ps[i], o)
  {
    RunInv(asyncBlocks, ps, es, i);
    ScanIsBack(o.current, ps[i].piped);
  }

  /** Taking the front b off the pipeline and draining from it: the blocks drained are one parent line
    * from b, each was ready and piped, and is gone from both queues. */
  lemma PopAndDrain(asyncBlocks: nat, p: Pipe, p1: Pipe, b: Block)
    requires Inv(asyncBlocks, p) && p.piped != [] && p.piped[0] == b
    requires p1.piped == p.piped[1..] && p1.rdy == p.rdy
    ensures var q, c := Drain(p1, b), Drained(p.rdy, b);
      && IsLine(b, c)
      && (forall x | x in c :: x in p.rdy && x in p.piped)
      && b !in c
      && q.done == p1.done + c
      && q.piped == Without(p.piped, {b} + Elems(c)) && q.rdy == Without(p.rdy, Elems(c))
      && (forall x | x in q.rdy :: !IsChild(x, Last(b, c)))
      && q.hqc == (if c == [] then p1.hqc else Taller(p1.hqc, Last(b, c)))
  {
    hide Without, Drain, Drained, IsLine, Height, Elems, Increasing, Distinct, ReadyPiped, ReadyPipedAt, FirstChild,
         Closed, IsChild, Last, Taller;
    PopFront(asyncBlocks, p);
    DrainEffect(p1, b);
    WithoutFront(p.piped, Elems(Drained(p.rdy, b)));
    LineHeights(b, Drained(p.rdy, b));
  }

  /** In every run, when the front of the pipeline gets its quorum: it is finished first, then one parent
    * line of ready blocks from it, each taken off both queues; no ready block follows the last of them; and
    * the highest certified block is then the taller of what it was and the end of the line. */
  lemma FrontDrains(asyncBlocks: nat, ps: seq<Pipe>, es: seq<Event>, i: nat, b: Block)
    requires IsRun(asyncBlocks, ps, es) && i < |ps| && Enabled(asyncBlocks, ps[i], Complete(b))
    requires ps[i].piped != [] && ps[i].piped[0] == b
    ensures var p, q, c := ps[i], AfterComplete(ps[i], b), Drained(ps[i].rdy, b);
      && IsLine(b, c)
      && (forall x | x in c :: x in p.rdy && x in p.piped)
      && q.done == p.done + ([b] + c)
      && q.piped == Without(p.piped, {b} + Elems(c)) && q.rdy == Without(p.rdy, Elems(c))
      && (forall x | x in q.rdy :: !IsChild(x, Last(b, c)))
      && q.hqc == Taller(p.hqc, Last(b, c))
  {
    hide IsRun, Inv, Enabled, Without, Drained, IsLine, Height, Elems, Taller, Last, IsChild, AfterComplete;
    RunInv(asyncBlocks, ps, es, i);
    FrontDrainsAt(asyncBlocks, ps[i], b);
  }

  lemma FrontDrainsAt(asyncBlocks: nat, p: Pipe, b: Block)
    requires Inv(asyncBlocks, p) && p.piped != [] && p.piped[0] == b
    ensures var q, c := AfterComplete(p, b), Drained(p.rdy, b);
      && IsLine(b, c)
      && (forall x | x in c :: x in p.rdy && x in p.piped)
      && q.done == p.done + ([b] + c)
      && q.piped == Without(p.piped, {b} + Elems(c)) && q.rdy == Without(p.rdy, Elems(c))
      && (forall x | x in q.rdy :: !IsChild(x, Last(b, c)))
      && q.hqc == Taller(p.hqc, Last(b, c))
  {
    hide Inv, Without, Drain, Drained, IsLine, Height, Elems, Taller, Last, IsChild, AfterComplete;
    var c := Drained(p.rdy, b);
    CompleteIsDrain(p, b);
    PopAndDrain(asyncBlocks, p, Popped(p, b), b);
    TallerEnd(p.hqc, b, c);
    assert p.done + [b] + c == p.done + ([b] + c);
  }

  /** The front completed, off the pipeline and finished. */
  function Popped(p: Pipe, b: Block): Pipe
    requires p.piped != []
  {
    Finish(p.(completed := p.completed + {b}, piped := p.piped[1..]), b)
  }

  lemma CompleteIsDrain(p: Pipe, b: Block)
    requires p.piped != [] && p.piped[0] == b
    ensures AfterComplete(p, b) == Drain(Popped(p, b), b)
  {
  }

  lemma AgainIsDrain(p: Pipe, b: Block)
    requires p.piped != [] && p.piped[0] == b
    ensures AfterAgain(p, b) == Drain(p.(piped := p.piped[1..]), b)
  {
  }

  lemma WithoutFront(s: seq<Block>, gone: set<Block>)
    requires s != [] && s[0] !in s[1..]
    ensures Without(s[1..], gone) == Without(s, {s[0]} + gone)
  {
    WithoutNone(s[1..], {s[0]});
    WithoutTwice(s[1..], {s[0]}, gone);
  }

  // ---------- a ready block can be stranded ----------

  /** A ready block that is no longer piped. */
  predicate Stranded(p: Pipe, r: Block) {
    r in p.rdy && r !in p.piped
  }

  /** When exactly a step strands a block: a relay arrives again for the ready block at the front, which is then
    * taken off the pipeline without being finished. */
  lemma StrandedWhen(asyncBlocks: nat, p: Pipe, e: Event, r: Block)
    requires Inv(asyncBlocks, p) && Enabled(asyncBlocks, p, e) && !Stranded(p, r)
    ensures Stranded(Step(asyncBlocks, p, e), r) <==>
      e == Again(r) && p.piped != [] && p.piped[0] == r && r in p.rdy
  {
    hide Without, Drain, Drained, IsLine, Height, Scan, IsChild, Increasing, Distinct, ReadyPiped, Closed;
    match e {
      case Beat(o) =>
      case Direct(b) =>
      case Failed(b) =>
      case Complete(b) =>
        if p.piped != [] && p.piped[0] == b {
          CompleteIsDrain(p, b);
          PopAndDrain(asyncBlocks, p, Popped(p, b), b);
        }
      case Again(b) =>
        if p.piped != [] && p.piped[0] == b {
          AgainIsDrain(p, b);
          PopAndDrain(asyncBlocks, p, p.(piped := p.piped[1..]), b);
        }
    }
  }

  /** A stranded block stays ready for ever; nothing but a late vote of its own finishes it. */
  lemma StrandedForEver(asyncBlocks: nat, p: Pipe, e: Event, r: Block)
    requires Inv(asyncBlocks, p) && Enabled(asyncBlocks, p, e) && Stranded(p, r)
    ensures Stranded(Step(asyncBlocks, p, e), r)
    ensures multiset(Step(asyncBlocks, p, e).done)[r] == multiset(p.done)[r] + if e == Direct(r) then 1 else 0
  {
    hide Without, Drain, Drained, IsLine, Height, Scan, IsChild, Increasing, Distinct, ReadyPiped, Closed;
    match e {
      case Beat(o) =>
        assert forall b, piped | Proposed(asyncBlocks, p, o) == Some((b, piped)) :: b != r;
      case Direct(b) =>
      case Failed(b) =>
      case Complete(b) =>
        if p.piped != [] && p.piped[0] == b {
          CompleteIsDrain(p, b);
          PopAndDrain(asyncBlocks, p, Popped(p, b), b);
          DoneCount(p.done + [b], Drained(p.rdy, b), r);
        }
      case Again(b) =>
        if p.piped != [] && p.piped[0] == b {
          AgainIsDrain(p, b);
          PopAndDrain(asyncBlocks, p, p.(piped := p.piped[1..]), b);
          DoneCount(p.done, Drained(p.rdy, b), r);
        }
    }
  }

  lemma DoneCount(a: seq<Block>, b: seq<Block>, r: Block)
    requires r !in b
    ensures multiset(a + b)[r] == multiset(a)[r]
  {
    assert multiset(a + b) == multiset(a) + multiset(b);
  }

  /** The blocks of a run that strands one: x, then a1 and a2 piped on it, n proposed on a2 with the pipeline
    * full, and c piped on n after a1 is done, so that c waits behind a2 without following it. */
  const QC0 := Cert(Genesis, {})
  const X := Block([Genesis], [0], QC0, [])
  const A1 := Block([X], [1], QC0, [])
  const A2 := Block([A1, X], [2], QC0, [])
  const N := Block([A2, X], [3], QC0, [])
  const C := Block([N], [4], QC0, [])

  function StrandingEvents(): seq<Event> {
    [Beat(Offer(Genesis, Genesis, QC0, [0], false)), Beat(Offer(X, X, QC0, [1], false)),
     Beat(Offer(X, X, QC0, [2], false)), Beat(Offer(X, X, QC0, [3], false)), Complete(A1),
     Beat(Offer(N, N, QC0, [4], false)), Complete(C), Complete(A2), Again(C)]
  }

  /** The state after each of those events. */
  function StrandingStates(): seq<Pipe> {
    [Initial(),
     Pipe([], [], Genesis, {Genesis, X}, {}, []),
     Pipe([A1], [], Genesis, {Genesis, X, A1}, {}, []),
     Pipe([A1, A2], [], Genesis, {Genesis, X, A1, A2}, {}, []),
     Pipe([A1, A2], [], Genesis, {Genesis, X, A1, A2, N}, {}, []),
     Pipe([A2], [], A1, {Genesis, X, A1, A2, N}, {A1}, [A1]),
     Pipe([A2, C], [], A1, {Genesis, X, A1, A2, N, C}, {A1}, [A1]),
     Pipe([A2, C], [C], A1, {Genesis, X, A1, A2, N, C}, {A1, C}, [A1]),
     Pipe([C], [C], A2, {Genesis, X, A1, A2, N, C}, {A1, C, A2}, [A1, A2]),
     Pipe([], [C], A2, {Genesis, X, A1, A2, N, C}, {A1, C, A2}, [A1, A2])]
  }

  lemma StrandingHeights()
    ensures Height(Genesis) == 0 && Height(X) == 1 && Height(A1) == 2 && Height(A2) == 3 && Height(N) == 4 &&
      Height(C) == 5
  {
  }

  /** The scans of a queue of one. */
  lemma ScanOne(highest: Block, x: Block)
    ensures Scan(highest, [x]) == if Height(x) > Height(highest) then x else highest
  {
    assert [x][1..] == [];
  }

  lemma StrandingProposals()
    ensures Proposed(2, StrandingStates()[0], StrandingEvents()[0].offer) == Some((X, false))
    ensures Proposed(2, StrandingStates()[1], StrandingEvents()[1].offer) == Some((A1, true))
    ensures Proposed(2, StrandingStates()[2], StrandingEvents()[2].offer) == Some((A2, true))
    ensures Proposed(2, StrandingStates()[3], StrandingEvents()[3].offer) == Some((N, false))
    ensures Proposed(2, StrandingStates()[5], StrandingEvents()[5].offer) == Some((C, true))
  {
    StrandingHeights();
    ScanOne(X, A1);
    ScanOne(N, A2);
    hide Height, Scan;
    assert Scan(X, []) == X by {
      ScanTallest(X, []);
    }
  }

  lemma TallerIs()
    ensures Taller(Genesis, A1) == A1 && Taller(A1, A2) == A2
  {
    StrandingHeights();
  }

  lemma StrandingStep(i: nat)
    requires i < 9
    ensures StepAt(2, StrandingStates(), StrandingEvents(), i)
  {
    StrandingProposals();
    hide Height, Proposed;
    var ps, es := StrandingStates(), StrandingEvents();
    if i == 4 {
      assert Step(2, ps[4], es[4]) == ps[5] by {
        TallerIs();
      }
    } else if i == 6 {
      assert Step(2, ps[6], es[6]) == ps[7];
    } else if i == 7 {
      assert FirstChild([C], A2) == None;
      assert Step(2, ps[7], es[7]) == ps[8] by {
        TallerIs();
      }
    } else if i == 8 {
      assert FirstChild([C], C) == None;
      assert Step(2, ps[8], es[8]) == ps[9];
    }
  }

  /** Stranding does happen: with two blocks allowed ahead, the run above leaves c ready but neither
    * piped nor finished. */
  lemma StrandingHappens()
    ensures IsRun(2, StrandingStates(), StrandingEvents())
    ensures Stranded(StrandingStates()[9], C) && C !in StrandingStates()[9].done
  {
    forall i | 0 <= i < 9 ensures StepAt(2, StrandingStates(), StrandingEvents(), i) {
      StrandingStep(i);
    }
    hide StepAt;
  }

  // ---------- the object ----------

  lemma EraseNext(q: seq<Block>, k: nat, x: Block)
    requires k < |q| && q[k] != x
    ensures q[..k] + Erase(q[k..], x) == q[..k + 1] + Erase(q[k + 1..], x)
  {
    assert q[k..][1..] == q[k + 1..];
    assert q[..k] + [q[k]] == q[..k + 1];
    assert q[..k] + ([q[k]] + Erase(q[k + 1..], x)) == (q[..k] + [q[k]]) + Erase(q[k + 1..], x);
  }

  /** The proposer's queues as its handlers keep them. */
  class ProposerQueues {
    var piped: seq<Block>
    var rdy: seq<Block>
    var hqc: Block
    var stored: set<Block>
    var completed: set<Block>
    var done: seq<Block>

    ghost function Value(): Pipe
      reads this
    {
      Pipe(piped, rdy, hqc, stored, completed, done)
    }

    constructor ()
      ensures Value() == Initial()
    {
      piped, rdy, hqc := [], [], Genesis;
      stored, completed, done := {Genesis}, {}, [];
    }

    /** update_hqc and on_qc_finish. */
    method FinishBlock(b: Block)
      modifies this`hqc, this`done
      ensures Value() == Finish(old(Value()), b)
    {
      if Height(b) > Height(hqc) {
        hqc := b;
      }
      done := done + [b];
    }

    /** Propose if the pipeline allows: ahead of the last proposal's certificate while there is room,
      * looking through the whole queue for the tallest block, and in the normal way when it is full. */
    method OnBeat(asyncBlocks: nat, o: Offer) returns (made: Option<Block>)
      modifies this`stored, this`piped
      ensures Value() == AfterBeat(asyncBlocks, old(Value()), o)
      ensures made == match Proposed(asyncBlocks, old(Value()), o) case None => None case Some((b, _)) => Some(b)
    {
      if |piped| > asyncBlocks + 1 {
        return None;
      }
      var parents := [o.tail];
      if |piped| < asyncBlocks && o.current != Genesis {
        if piped == [] && o.tooSoon {
          return None;
        }
        var highest, k := o.current, 0;
        while k < |piped|
          invariant k <= |piped|
          invariant Scan(o.current, piped) == Scan(highest, piped[k..])
        {
          if Height(piped[k]) > Height(highest) {
            highest := piped[k];
          }
          k := k + 1;
        }
        if Height(o.tail) < Height(highest) {
          parents := [highest] + parents;
        }
        assert parents == PipedParents(Value(), o);
        var b := Block(parents, o.cmds, o.qc, []);
        stored := stored + {b};
        piped := piped + [b];
        return Some(b);
      }
      if piped != [] && Height(o.tail) <= Height(piped[|piped| - 1]) {
        parents := [piped[|piped| - 1]] + parents;
      }
      assert parents == NormalParents(Value(), o);
      var b := Block(parents, o.cmds, o.qc, []);
      stored := stored + {b};
      return Some(b);
    }

    /** The first entry of q that is a child of c. */
    method FindChild(q: seq<Block>, c: Block) returns (r: Option<Block>)
      ensures r == FirstChild(q, c)
    {
      var k := 0;
      while k < |q|
        invariant k <= |q|
        invariant FirstChild(q, c) == FirstChild(q[k..], c)
      {
        if q[k].HasParent() && q[k].parents[0] == c {
          return Some(q[k]);
        }
        k := k + 1;
      }
      return None;
    }

    /** Find x and erase it. */
    method Remove(q: seq<Block>, x: Block) returns (r: seq<Block>)
      ensures r == Erase(q, x)
    {
      var k := 0;
      while k < |q| && q[k] != x
        invariant k <= |q|
        invariant Erase(q, x) == q[..k] + Erase(q[k..], x)
      {
        EraseNext(q, k, x);
        k := k + 1;
      }
      if k == |q| {
        assert q[..k] == q;
        return q;
      }
      assert q[k..][1..] == q[k + 1..];
      return q[..k] + q[k + 1..];
    }

    /** Finish ready blocks as long as one follows the last one finished. */
    method DrainReady(start: Block)
      modifies this`piped, this`rdy, this`hqc, this`done
      ensures Value() == Drain(old(Value()), start)
    {
      ghost var p := Value();
      var curr, found := start, true;
      while found
        invariant Drain(p, start) == if found then Drain(Value(), curr) else Value()
        invariant stored == p.stored && completed == p.completed
        decreases |rdy|, found
      {
        hide Erase;
        var r := FindChild(rdy, curr);
        found := r.Some?;
        if found {
          EraseShrinks(rdy, r.value);
          rdy := Remove(rdy, r.value);
          piped := Remove(piped, r.value);
          FinishBlock(r.value);
          curr := r.value;
        }
      }
    }

    /** A relay for b: full says whether its certificate had a quorum before, fills whether it has one now, valid
      * whether it then verifies. */
    method OnRelay(b: Block, full: bool, fills: bool, valid: bool)
      requires full <==> b in completed
      modifies this
      ensures Value() ==
        if full then AfterAgain(old(Value()), b)
        else if fills && valid then AfterComplete(old(Value()), b)
        else if fills then old(Value()).(completed := old(Value()).completed + {b})
        else old(Value())
    {
      hide Drain;
      if full {
        if piped != [] && piped[0] == b {
          piped := piped[1..];
          if rdy != [] {
            DrainReady(b);
          }
        }
        return;
      }
      if !fills {
        return;
      }
      completed := completed + {b};
      if !valid {
        return;
      }
      if piped == [] {
        FinishBlock(b);
      } else if piped[0] == b {
        piped := piped[1..];
        FinishBlock(b);
        if rdy != [] {
          DrainReady(b);
        }
      } else if b in piped {
        rdy := rdy + [b];
      } else {
        FinishBlock(b);
      }
    }

    /** A vote for b that leaves its certificate with a quorum. */
    method OnVote(b: Block)
      modifies this
      ensures forall asyncBlocks: nat :: Value() == Step(asyncBlocks, old(Value()), Direct(b))
    {
      completed := completed + {b};
      FinishBlock(b);
    }
  }
}
