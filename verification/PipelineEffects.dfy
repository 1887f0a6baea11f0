/** What each event of the pipeline does, told by heights and by counting, and what whole runs of it finish. */
module PipelineEffects {
  import opened Blocks
  import opened Pipeline

  // ---------- a quorum behind the front, or of a block that is not piped ----------

  /** In every run, a block that gets its quorum and is not piped, with the queue empty or not, is finished at once and
    * leaves the queues alone; one that is piped but not at the front only joins the ready ones. */
  lemma OthersComplete(asyncBlocks: nat, ps: seq<Pipe>, es: seq<Event>, i: nat, b: Block)
    requires IsRun(asyncBlocks, ps, es) && i < |ps| && Enabled(asyncBlocks, ps[i], Complete(b))
    ensures var p, q := ps[i], Step(asyncBlocks, ps[i], Complete(b));
      && (b !in p.piped ==>
            && q.done == p.done + [b] && q.piped == p.piped && q.rdy == p.rdy
            && q.hqc == (if Height(b) > Height(p.hqc) then b else p.hqc))
      && (b in p.piped && p.piped[0] != b ==>
            && q.rdy == p.rdy + [b] && b !in p.rdy
            && q.done == p.done && q.hqc == p.hqc && q.piped == p.piped)
  {
    hide IsRun, Height, Increasing, Distinct, ReadyPiped, Closed;
    RunInv(asyncBlocks, ps, es, i);
  }

  /** In every run, a further relay for the block at the front takes it off the pipeline, and one parent line of ready
    * blocks from it is finished; the block itself is not.  For any other block it does nothing. */
  lemma AgainDrains(asyncBlocks: nat, ps: seq<Pipe>, es: seq<Event>, i: nat, b: Block)
    requires IsRun(asyncBlocks, ps, es) && i < |ps| && Enabled(asyncBlocks, ps[i], Again(b))
    ensures var p, q, c := ps[i], Step(asyncBlocks, ps[i], Again(b)), Drained(ps[i].rdy, b);
      && (p.piped == [] || p.piped[0] != b ==> q == p)
      && (p.piped != [] && p.piped[0] == b ==>
            && IsLine(b, c) && b !in c
            && (forall x | x in c :: x in p.rdy && x in p.piped)
            && q.done == p.done + c
            && q.piped == Without(p.piped, {b} + Elems(c)) && q.rdy == Without(p.rdy, Elems(c))
            && (forall x | x in q.rdy :: !IsChild(x, Last(b, c)))
            && q.hqc == (if c == [] then p.hqc else Taller(p.hqc, Last(b, c))))
  {
    hide IsRun, Inv, Height, Without, Drain, Drained, IsLine, Elems, Taller, Last, IsChild;
    RunInv(asyncBlocks, ps, es, i);
    var p := ps[i];
    if p.piped != [] && p.piped[0] == b {
      AgainIsDrain(p, b);
      PopAndDrain(asyncBlocks, p, p.(piped := p.piped[1..]), b);
    }
  }

  // ---------- the block a beat makes ----------

  /** The tail is the last parent of b, and there is at most one other. */
  predicate OnTail(b: Block, o: Offer) {
    b.HasParent() && |b.parents| <= 2 && b.parents[|b.parents| - 1] == o.tail
  }

  /** In every run, a beat makes no block exactly if the last proposal is too recent to be the first to be piped on.  A
    * new block is piped exactly if there is room and a last proposal; it has the tail as its last parent and stands
    * above the tail, above every piped block and, if piped, above the last proposal.  Its first parent is the tail
    * unless something piped is taller, or as tall if the pipeline is full, and then that. */
  lemma BeatMakes(asyncBlocks: nat, ps: seq<Pipe>, es: seq<Event>, i: nat, o: Offer)
    requires IsRun(asyncBlocks, ps, es) && i < |ps| && Enabled(asyncBlocks, ps[i], Beat(o))
    ensures var p, q, room := ps[i], Step(asyncBlocks, ps[i], Beat(o)), |ps[i].piped| < asyncBlocks;
      var ahead := room && o.current != Genesis;
      && q == p.(stored := q.stored, piped := q.piped)
      && (q.stored == p.stored <==> ahead && p.piped == [] && o.tooSoon)
      && (q.stored == p.stored ==> q.piped == p.piped)
      && (q.stored != p.stored ==>
            exists b | b !in p.stored ::
              && q.stored == p.stored + {b} && q.piped == (if ahead then p.piped + [b] else p.piped)
              && OnTail(b, o) && b.cmds == o.cmds && b.qc == o.qc
              && MadeOn(p, o, ahead, b))
  {
    hide IsRun, Height, OnTail, MadeOn;
    RunInv(asyncBlocks, ps, es, i);
    var p := ps[i];
    match Proposed(asyncBlocks, p, o) {
      case None =>
      case Some((b, ahead)) =>
        assert b !in p.stored;
        assert b in Step(asyncBlocks, p, Beat(o)).stored;
        MadeShape(asyncBlocks, p, o);
    }
  }

  /** The heights around a new block. */
  predicate MadeOn(p: Pipe, o: Offer, ahead: bool, b: Block)
    requires b.HasParent()
  {
    var first := b.parents[0];
    && Height(b) == Height(first) + 1
    && (forall x | x in p.piped :: Height(x) < Height(b))
    && Height(o.tail) < Height(b)
    && (ahead ==> Height(o.current) < Height(b))
    && (first == o.tail || first in p.piped || (ahead && first == o.current))
    && (ahead && Height(first) == Height(o.current) > Height(o.tail) ==> first == o.current)
    && (if ahead then |b.parents| == 2 <==> Height(o.tail) < Height(first)
        else |b.parents| == 2 <==> exists x | x in p.piped :: Height(o.tail) <= Height(x))
    && (!ahead && |b.parents| == 2 ==> first in p.piped)
  }

  lemma MadeShape(asyncBlocks: nat, p: Pipe, o: Offer)
    requires Inv(asyncBlocks, p) && Proposed(asyncBlocks, p, o).Some?
    ensures var (b, ahead) := Proposed(asyncBlocks, p, o).value;
      && OnTail(b, o) && b.cmds == o.cmds && b.qc == o.qc && MadeOn(p, o, ahead, b)
      && (ahead <==> |p.piped| < asyncBlocks && o.current != Genesis)
  {
    var (b, ahead) := Proposed(asyncBlocks, p, o).value;
    hide Proposed;
    BlockMade(asyncBlocks, p, o);
    assert Height(b) == Height(b.parents[0]) + 1;
    if ahead {
      ScanTallest(o.current, p.piped);
      ScanIsBack(o.current, p.piped);
    } else if p.piped != [] {
      BackTallest(p.piped);
    }
  }

  lemma BackTallest(s: seq<Block>)
    requires Increasing(s) && s != []
    ensures forall x | x in s :: Height(x) <= Height(s[|s| - 1])
    ensures s[|s| - 1] in s
  {
    hide Height;
  }

  lemma BlockMade(asyncBlocks: nat, p: Pipe, o: Offer)
    requires Inv(asyncBlocks, p) && Proposed(asyncBlocks, p, o).Some?
    ensures var (b, ahead) := Proposed(asyncBlocks, p, o).value;
      && b == Block(if ahead then PipedParents(p, o) else NormalParents(p, o), o.cmds, o.qc, [])
      && (ahead <==> |p.piped| < asyncBlocks && o.current != Genesis)
  {
  }

  // ---------- whole runs ----------

  /** How many events of the run leave b with its quorum. */
  function Quorums(es: seq<Event>, b: Block): nat {
    if es == [] then 0
    else
      var last := es[|es| - 1];
      Quorums(es[..|es| - 1], b) + if last == Complete(b) || last == Direct(b) then 1 else 0
  }

  function Times(s: seq<Block>, b: Block): nat {
    multiset(s)[b]
  }

  /** In every run, every time a block got its quorum it has been finished, once, or it is among the ready ones; and
    * nothing else has been finished.  The highest certified block is a tallest of those finished. */
  lemma {:induction false} Accounted(asyncBlocks: nat, ps: seq<Pipe>, es: seq<Event>, i: nat, b: Block)
    requires IsRun(asyncBlocks, ps, es) && i < |ps|
    ensures i <= |es| && Times(ps[i].done, b) + Times(ps[i].rdy, b) == Quorums(es[..i], b)
    ensures HqcTallest(ps[i])
  {
    if i > 0 {
      hide Inv, Step, Enabled, Times, HqcTallest;
      Accounted(asyncBlocks, ps, es, i - 1, b);
      RunInv(asyncBlocks, ps, es, i - 1);
      assert StepAt(asyncBlocks, ps, es, i - 1);
      StepAccounted(asyncBlocks, ps[i - 1], es[i - 1], b);
      StepTallest(asyncBlocks, ps[i - 1], es[i - 1]);
      assert es[..i][..i - 1] == es[..i - 1];
    }
  }

  predicate HqcTallest(p: Pipe) {
    && (p.hqc == Genesis || p.hqc in p.done)
    && forall b | b in p.done :: Height(b) <= Height(p.hqc)
  }

  lemma DistinctTimes(s: seq<Block>, b: Block)
    requires Distinct(s)
    ensures Times(s, b) == if b in s then 1 else 0
  {
    if s != [] {
      DistinctTail(s);
      DistinctTimes(s[1..], b);
      assert s == [s[0]] + s[1..];
      TimesAppend([s[0]], s[1..], b);
    }
  }

  lemma TimesAppend(s: seq<Block>, t: seq<Block>, b: Block)
    ensures Times(s + t, b) == Times(s, b) + Times(t, b)
  {
    assert multiset(s + t) == multiset(s) + multiset(t);
  }

  lemma LineDistinct(curr: Block, c: seq<Block>)
    requires IsLine(curr, c)
    ensures Distinct(c) && forall b | b in c :: Height(b) <= Height(Last(curr, c))
  {
    LineHeights(curr, c);
    hide Height;
    IncreasingDistinct(c);
    if c != [] {
      BackTallest(c);
    }
  }

  /** A drain moves what it finishes from the ready blocks to the finished ones. */
  lemma DrainAccounted(rdy: seq<Block>, rdy': seq<Block>, done: seq<Block>, curr: Block, c: seq<Block>, b: Block)
    requires Distinct(rdy) && Distinct(rdy') && IsLine(curr, c)
    requires (forall x | x in c :: x in rdy) && (forall x :: x in rdy' <==> x in rdy && x !in Elems(c))
    ensures Times(done + c, b) + Times(rdy', b) == Times(done, b) + Times(rdy, b)
  {
    hide Times, Distinct;
    LineDistinct(curr, c);
    DistinctTimes(c, b);
    DistinctTimes(rdy, b);
    DistinctTimes(rdy', b);
    TimesAppend(done, c, b);
  }

  lemma StepAccounted(asyncBlocks: nat, p: Pipe, e: Event, b: Block)
    requires Inv(asyncBlocks, p) && Enabled(asyncBlocks, p, e)
    ensures var q := Step(asyncBlocks, p, e);
      Times(q.done, b) + Times(q.rdy, b) ==
      Times(p.done, b) + Times(p.rdy, b) + if e == Complete(b) || e == Direct(b) then 1 else 0
  {
    hide Without, Drain, Drained, IsLine, Height, Elems, Times, Last, Taller, IsChild, Increasing, Distinct, ReadyPiped,
         Closed, Proposed;
    StepInv(asyncBlocks, p, e);
    match e {
      case Beat(o) =>
      case Failed(x) =>
      case Direct(x) =>
        OneMore(p.done, x, b);
      case Again(x) =>
        if p.piped != [] && p.piped[0] == x {
          AgainIsDrain(p, x);
          var p1 := p.(piped := p.piped[1..]);
          PopAndDrain(asyncBlocks, p, p1, x);
          DrainAccounted(p.rdy, Drain(p1, x).rdy, p.done, x, Drained(p.rdy, x), b);
        }
      case Complete(x) =>
        OneMore(p.done, x, b);
        OneMore(p.rdy, x, b);
        if p.piped != [] && p.piped[0] == x {
          CompleteIsDrain(p, x);
          var p1 := Popped(p, x);
          PopAndDrain(asyncBlocks, p, p1, x);
          DrainAccounted(p.rdy, Drain(p1, x).rdy, p1.done, x, Drained(p.rdy, x), b);
        }
    }
  }

  lemma OneMore(s: seq<Block>, x: Block, b: Block)
    ensures Times(s + [x], b) == Times(s, b) + if x == b then 1 else 0
  {
    TimesAppend(s, [x], b);
  }

  /** Finishing a line leaves the taller of the old one and the end of the line. */
  lemma LineTallest(p: Pipe, q: Pipe, curr: Block, c: seq<Block>)
    requires HqcTallest(p) && IsLine(curr, c) && q.done == p.done + c
    requires q.hqc == if c == [] then p.hqc else Taller(p.hqc, Last(curr, c))
    ensures HqcTallest(q)
  {
    LineDistinct(curr, c);
    hide Height, Distinct;
  }

  lemma FinishTallest(p: Pipe, b: Block)
    requires HqcTallest(p)
    ensures HqcTallest(Finish(p, b))
  {
    hide Height;
  }

  lemma StepTallest(asyncBlocks: nat, p: Pipe, e: Event)
    requires Inv(asyncBlocks, p) && Enabled(asyncBlocks, p, e) && HqcTallest(p)
    ensures HqcTallest(Step(asyncBlocks, p, e))
  {
    hide Without, Drain, Drained, IsLine, Height, Elems, Last, Taller, IsChild, Increasing, Distinct, ReadyPiped,
         Closed, Proposed, HqcTallest, Finish;
    match e {
      case Beat(o) =>
        SamePointers(p, Step(asyncBlocks, p, e));
      case Failed(x) =>
        SamePointers(p, Step(asyncBlocks, p, e));
      case Direct(x) =>
        var p1 := p.(completed := p.completed + {x});
        SamePointers(p, p1);
        FinishTallest(p1, x);
      case Again(x) =>
        if p.piped != [] && p.piped[0] == x {
          AgainIsDrain(p, x);
          var p1 := p.(piped := p.piped[1..]);
          SamePointers(p, p1);
          PopAndDrain(asyncBlocks, p, p1, x);
          LineTallest(p1, Drain(p1, x), x, Drained(p.rdy, x));
        }
      case Complete(x) =>
        CompleteTallest(asyncBlocks, p, x);
    }
  }

  lemma SamePointers(p: Pipe, q: Pipe)
    requires q.hqc == p.hqc && q.done == p.done && HqcTallest(p)
    ensures HqcTallest(q)
  {
  }

  lemma CompleteTallest(asyncBlocks: nat, p: Pipe, x: Block)
    requires Inv(asyncBlocks, p) && HqcTallest(p)
    ensures HqcTallest(AfterComplete(p, x))
  {
    hide Inv, Without, Drain, Drained, IsLine, Height, Elems, Last, Taller, IsChild, HqcTallest, Finish;
    var p1 := p.(completed := p.completed + {x});
    SamePointers(p, p1);
    FinishTallest(p1, x);
    if p.piped != [] && p.piped[0] == x {
      CompleteIsDrain(p, x);
      PoppedTallest(p, x);
      var p2 := Popped(p, x);
      PopAndDrain(asyncBlocks, p, p2, x);
      LineTallest(p2, Drain(p2, x), x, Drained(p.rdy, x));
    } else if x in p.piped {
      SamePointers(p, p1.(rdy := p.rdy + [x]));
    }
  }

  lemma PoppedTallest(p: Pipe, b: Block)
    requires p.piped != [] && HqcTallest(p)
    ensures HqcTallest(Popped(p, b)) && Popped(p, b).piped == p.piped[1..] && Popped(p, b).rdy == p.rdy
  {
    hide Height;
  }
}
