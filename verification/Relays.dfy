/** What the replicas relay and how often, in every tree, patient or not. */
module Relays {
  import opened Blocks
  import opened Votes
  import opened Tree
  import opened TreeShape
  import opened Convergecast

  // ---------- one event, in any state ----------

  /** A verified message g at p is ignored if it is a relay and the certificate has a quorum, or if p is below the root
    * and has enough for its own relay.  Otherwise its signers and signatures are added.  Below the root, the result is
    * sent on exactly if there are enough signers and it verifies; at the root, it is passed on exactly if it has a
    * quorum and verifies or g is a single vote. */
  lemma ReceiveExactly(net: Net, s: State, p: nat, relayed: bool, g: Gathered)
    requires net.Valid() && Shaped(net, s) && p < net.n
    ensures var s', was := Receive(net, s, p, relayed, g), Opened(s, p);
      var all := Gathered(was.signers + g.signers, was.parts + g.parts);
      var ignored := (relayed && |was.signers| >= net.NMajority()) ||
                     (p != 0 && |was.signers| > net.NumberOfChildren(p));
      var sends := !ignored && p != 0 && |all.signers| > net.NumberOfChildren(p) && all.parts == multiset(all.signers);
      var passes := !ignored && p == 0 && |all.signers| >= net.NMajority() &&
                    (relayed ==> all.parts == multiset(all.signers));
      s' == s.(certs := if ignored then s.certs else s.certs[p := Some(all)],
               sent := if sends then s.sent[p := s.sent[p] + [all]] else s.sent,
               finished := s.finished + if passes then 1 else 0)
  {
  }

  /** A message that comes in opens the certificate with the own signature, and is dropped exactly if that has a
    * quorum. */
  lemma TakeExactly(net: Net, s: State, p: nat, a: (nat, nat))
    requires net.Valid() && Shaped(net, s) && p < net.n
    ensures var s' := Take(net, s, p, a);
      var own := if s.certs[p].Some? then s.certs[p].value else Gathered({p}, multiset{p});
      && s' == s.(certs := s.certs[p := Some(own)], taken := s'.taken, arrived := s'.arrived)
      && (forall x :: x in s'.taken <==> x in s.taken || x == a)
      && (forall x :: x in s'.arrived <==> x in s.arrived || (x == a && |own.signers| >= net.NMajority()))
  {
  }

  /** A replica without children sends its vote; another puts it into a certificate unless it has one. */
  lemma CastExactly(net: Net, s: State, v: nat)
    requires net.Valid() && Shaped(net, s) && v < net.n
    ensures var s', own := CastVote(net, s, v), Gathered({v}, multiset{v});
      var leaf := forall j | 0 <= j < net.n :: !IsChild(net.n, net.m, v, j);
      s' == s.(voted := s.voted + {v},
               sent := if leaf then s.sent[v := s.sent[v] + [own]] else s.sent,
               certs := if leaf || s.certs[v].Some? then s.certs else s.certs[v := Some(own)])
  {
  }

  // ---------- the invariant, in any tree ----------

  /** A replica below the root: its certificate has every signature once, from whom it can have heard of; it has sent
    * nothing or one thing, in full order; and it has sent exactly once it had enough. */
  predicate Tidy(v: nat, leaf: bool, enough: nat, voted: bool, cert: Option<Gathered>, sent: seq<Gathered>,
                 heard: set<nat>, sub: set<nat>) {
    && (cert.Some? ==> cert.value.Verifies() && cert.value.signers <= heard)
    && |sent| <= 1
    && (sent != [] ==> sent[0].Verifies() && sent[0].signers <= sub && v in sent[0].signers)
    && if leaf then
         (sent != [] <==> voted) && (sent != [] ==> sent == [Single(v)])
       else
         && (cert.Some? ==> v in cert.value.signers)
         && (sent != [] <==> cert.Some? && |cert.value.signers| >= enough)
         && (sent != [] ==> cert == Some(sent[0]))
  }

  predicate NodeTidy(net: Net, s: State, v: nat)
    requires Shaped(net, s) && v < net.n && net.m >= 2
  {
    Tidy(v, net.IsLeaf(v), net.NumberOfChildren(v) + 1, v in s.voted, s.certs[v], s.sent[v],
         Gained(net, s, v) + {v}, Sub(net, v))
  }

  predicate RootTidy(net: Net, s: State)
    requires Shaped(net, s) && net.n >= 2 && net.m >= 2
  {
    && s.certs[0].Some? && s.certs[0].value.Verifies()
    && s.certs[0].value.signers <= Base(net) + Gained(net, s, 0)
  }

  predicate FirstOnly(net: Net, s: State)
    requires Shaped(net, s)
  {
    && (forall a | a in s.taken :: 1 <= a.0 < net.n && a.1 == 0 && s.sent[a.0] != [])
    && s.arrived <= s.taken
  }

  predicate NodesTidy(net: Net, s: State)
    requires Shaped(net, s) && net.m >= 2
  {
    forall v {:trigger NodeTidy(net, s, v)} | 1 <= v < net.n :: NodeTidy(net, s, v)
  }

  predicate TreeInv(net: Net, s: State) {
    net.Valid() && Shaped(net, s) && NodesTidy(net, s) && RootTidy(net, s) && FirstOnly(net, s)
  }

  lemma InitialTidy(net: Net)
    requires net.Valid()
    ensures TreeInv(net, Initial(net))
  {
    var s := Initial(net);
    NoneGained(net, s, 0);
    SingleIsEach(0);
    forall v | 1 <= v < net.n ensures NodeTidy(net, s, v) {
      hide Gained, Sub, Net.IsLeaf, Net.NumberOfChildren;
    }
  }

  /** An internal replica needs more than its own signature. */
  lemma NeedsTwo(net: Net, v: nat)
    requires net.m >= 2 && v < net.n && !net.IsLeaf(v)
    ensures net.NumberOfChildren(v) >= 1
  {
    var j :| 0 <= j < net.n && IsChild(net.n, net.m, v, j);
    assert j in Counted(net.n, net.m, v, net.n);
  }

  /** Opening a certificate with the own signature. */
  lemma OpenTidy(v: nat, enough: nat, voted: bool, voted': bool, cert: Option<Gathered>, sent: seq<Gathered>,
                 heard: set<nat>, sub: set<nat>)
    requires Tidy(v, false, enough, voted, cert, sent, heard, sub) && enough >= 2 && v in heard
    ensures var was := if cert.Some? then cert.value else Single(v);
      Tidy(v, false, enough, voted', Some(was), sent, heard, sub)
  {
    SingleIsEach(v);
  }

  lemma LargerHeard(v: nat, leaf: bool, enough: nat, voted: bool, cert: Option<Gathered>, sent: seq<Gathered>,
                    heard: set<nat>, heard': set<nat>, sub: set<nat>)
    requires Tidy(v, leaf, enough, voted, cert, sent, heard, sub) && heard <= heard'
    ensures Tidy(v, leaf, enough, voted, cert, sent, heard', sub)
  {
  }

  lemma MergeTidy(v: nat, enough: nat, voted: bool, was: Gathered, sent: seq<Gathered>, g: Gathered,
                  heard: set<nat>, heard': set<nat>, sub: set<nat>)
    requires Tidy(v, false, enough, voted, Some(was), sent, heard, sub) && |was.signers| < enough
    requires g.Verifies() && g.signers !! heard && heard + g.signers <= heard' <= sub
    ensures var all := Merge(was, g);
      all.Verifies() &&
      Tidy(v, false, enough, voted, Some(all), if |all.signers| >= enough then sent + [all] else sent, heard', sub)
  {
    assert was == Each(was.signers) && g == Each(g.signers);
    MergeDisjoint(was.signers, g.signers);
  }

  /** Everyone whose own fields, and whose children's messages, are as before. */
  lemma OthersTidy(net: Net, s: State, s': State, p: nat)
    requires TreeInv(net, s) && Shaped(net, s') && p < net.n
    requires forall u | 0 <= u < net.n && u != p ::
      && s'.certs[u] == s.certs[u] && s'.sent[u] == s.sent[u] && (u in s'.voted <==> u in s.voted)
      && Gained(net, s', u) == Gained(net, s, u)
    ensures forall u | 1 <= u < net.n && u != p :: NodeTidy(net, s', u)
    ensures p != 0 ==> RootTidy(net, s')
  {
    hide Gained, Sub, Net.IsLeaf, Net.NumberOfChildren, Tidy;
    forall u | 1 <= u < net.n && u != p ensures NodeTidy(net, s', u) {
      assert NodeTidy(net, s, u);
    }
  }

  lemma NodeOf(net: Net, s: State, v: nat)
    requires TreeInv(net, s) && 1 <= v < net.n
    ensures net.Valid() && Shaped(net, s) && NodeTidy(net, s, v)
  {
    hide NodeTidy;
  }

  /** A replica casts its vote. */
  lemma CastNode(net: Net, s: State, v: nat)
    requires TreeInv(net, s) && Enabled(net, s, Cast(v))
    ensures NodeTidy(net, CastVote(net, s, v), v)
  {
    var s' := CastVote(net, s, v);
    NodeOf(net, s, v);
    SameGained(net, s, s', v);
    SingleIsEach(v);
    OwnSubtree(net, v);
    hide Gained, Sub, Net.IsLeaf, Net.NumberOfChildren, TreeInv;
    if !net.IsLeaf(v) {
      NeedsTwo(net, v);
      OpenTidy(v, net.NumberOfChildren(v) + 1, v in s.voted, true, s.certs[v], s.sent[v], Gained(net, s, v) + {v},
               Sub(net, v));
    }
  }

  lemma CastTidy(net: Net, s: State, v: nat)
    requires TreeInv(net, s) && Enabled(net, s, Cast(v))
    ensures TreeInv(net, CastVote(net, s, v))
  {
    hide Gained, Sub, Net.IsLeaf, Net.NumberOfChildren, NodeTidy, RootTidy;
    var s' := CastVote(net, s, v);
    CastNode(net, s, v);
    forall u | 0 <= u < net.n ensures Gained(net, s', u) == Gained(net, s, u) {
      SameGained(net, s, s', u);
    }
    OthersTidy(net, s, s', v);
  }

  lemma OwnSubtree(net: Net, v: nat)
    requires net.m >= 2 && v < net.n
    ensures v in Sub(net, v)
  {
    assert InSubtree(net.n, net.m, v, v);
  }

  lemma Gaining(net: Net, s: State, s': State, j: nat)
    requires net.m >= 2 && 1 <= j < net.n
    requires s'.arrived == s.arrived || s'.arrived == s.arrived + {(j, 0)}
    ensures forall u | 0 <= u < net.n && u != Parent(net.n, net.m, j) :: Gained(net, s', u) == Gained(net, s, u)
    ensures Gained(net, s, Parent(net.n, net.m, j)) <= Gained(net, s', Parent(net.n, net.m, j))
  {
    forall u | 0 <= u < net.n
      ensures Gained(net, s', u) == Gained(net, s, u) ||
        (u == Parent(net.n, net.m, j) && Gained(net, s, u) <= Gained(net, s', u))
    {
      if s'.arrived == s.arrived {
        SameGained(net, s, s', u);
      } else {
        GainedStep(net, s, s', u, j);
      }
    }
  }

  lemma TakeNode(net: Net, s: State, j: nat)
    requires TreeInv(net, s) && Enabled(net, s, Arrive(j, 0)) && Parent(net.n, net.m, j) != 0
    ensures var p := Parent(net.n, net.m, j);
      NodeTidy(net, Take(net, s, p, (j, 0)), p)
  {
    hide Gained, Sub, Net.IsLeaf, Net.NumberOfChildren, Net.NMajority, Parent, Tidy, TreeInv, Single;
    var p := Parent(net.n, net.m, j);
    var s' := Take(net, s, p, (j, 0));
    NodeOf(net, s, p);
    NotLeaf(net, p, j);
    NeedsTwo(net, p);
    Gaining(net, s, s', j);
    var heard, heard', enough := Gained(net, s, p) + {p}, Gained(net, s', p) + {p}, net.NumberOfChildren(p) + 1;
    OpenTidy(p, enough, p in s.voted, p in s.voted, s.certs[p], s.sent[p], heard, Sub(net, p));
    LargerHeard(p, false, enough, p in s.voted, s'.certs[p], s'.sent[p], heard, heard', Sub(net, p));
  }

  lemma TakeTidy(net: Net, s: State, j: nat)
    requires TreeInv(net, s) && Enabled(net, s, Arrive(j, 0))
    ensures TreeInv(net, Take(net, s, Parent(net.n, net.m, j), (j, 0)))
  {
    hide Gained, Sub, Net.IsLeaf, Net.NumberOfChildren, Net.NMajority, Parent, NodeTidy, Single;
    var p := Parent(net.n, net.m, j);
    var s' := Take(net, s, p, (j, 0));
    Gaining(net, s, s', j);
    OthersTidy(net, s, s', p);
    if p != 0 {
      TakeNode(net, s, j);
    }
  }

  /** What the verified message of a child brings is new, and verifies. */
  lemma NewMessage(net: Net, s: State, j: nat)
    requires TreeInv(net, s) && Enabled(net, s, Checked(j, 0))
    ensures var p, g := Parent(net.n, net.m, j), s.sent[j][0];
      && s.sent[j] == [g] && g.Verifies() && g.signers <= Sub(net, j) && j in g.signers
      && Sub(net, j) !! Gained(net, s, p) + {p} && (p == 0 ==> Sub(net, j) !! Base(net) + Gained(net, s, p))
  {
    assert NodeTidy(net, s, j);
    NewsIsNew(net, s, Parent(net.n, net.m, j), j);
  }

  /** Adding g, unless it is ignored, and sending if that makes enough. */
  lemma ReceiveTidy(v: nat, enough: nat, voted: bool, cert: Option<Gathered>, sent: seq<Gathered>, g: Gathered,
                    heard: set<nat>, heard': set<nat>, sub: set<nat>, full: bool,
                    cert': Option<Gathered>, sent': seq<Gathered>)
    requires Tidy(v, false, enough, voted, cert, sent, heard, sub) && enough >= 2 && v in heard
    requires g.Verifies() && g.signers !! heard && heard + g.signers <= heard' <= sub
    requires var was := if cert.Some? then cert.value else Single(v);
      var all := Merge(was, g);
      if full || |was.signers| >= enough then cert' == cert && sent' == sent
      else cert' == Some(all) && sent' == if |all.signers| >= enough && all.Verifies() then sent + [all] else sent
    ensures Tidy(v, false, enough, voted, cert', sent', heard', sub)
  {
    hide Gathered.Verifies;
    LargerHeard(v, false, enough, voted, cert, sent, heard, heard', sub);
    OpenTidy(v, enough, voted, voted, cert, sent, heard, sub);
    var was := if cert.Some? then cert.value else Single(v);
    if |was.signers| < enough {
      MergeTidy(v, enough, voted, was, sent, g, heard, heard', sub);
    }
  }

  /** What the message of j changes. */
  lemma CheckedShape(net: Net, s: State, j: nat)
    requires TreeInv(net, s) && Enabled(net, s, Checked(j, 0)) && Parent(net.n, net.m, j) != 0
    ensures var p, g, s' := Parent(net.n, net.m, j), s.sent[j][0], Step(net, s, Checked(j, 0));
      var was, enough := if s.certs[p].Some? then s.certs[p].value else Single(p), net.NumberOfChildren(p) + 1;
      var all := Merge(was, g);
      && Shaped(net, s') && s'.voted == s.voted && s'.arrived == s.arrived + {(j, 0)} && s'.taken == s.taken
      && s'.finished == s.finished
      && (forall u | 0 <= u < net.n && u != p :: s'.certs[u] == s.certs[u] && s'.sent[u] == s.sent[u])
      && (s.sent[p] != [] ==> s'.sent[p] != [])
      && (if (!net.IsLeaf(j) && |was.signers| >= net.NMajority()) || |was.signers| >= enough then
            s'.certs[p] == s.certs[p] && s'.sent[p] == s.sent[p]
          else
            s'.certs[p] == Some(all) &&
            s'.sent[p] == if |all.signers| >= enough && all.Verifies() then s.sent[p] + [all] else s.sent[p])
  {
    hide Gained, Sub, Net.IsLeaf, Net.NumberOfChildren, Parent, Net.NMajority, TreeInv, Gathered.Verifies;
  }

  lemma CheckedBelowRoot(net: Net, s: State, j: nat)
    requires TreeInv(net, s) && Enabled(net, s, Checked(j, 0)) && Parent(net.n, net.m, j) != 0
    ensures var s' := Step(net, s, Checked(j, 0));
      Shaped(net, s') && NodeTidy(net, s', Parent(net.n, net.m, j))
  {
    hide Gained, Sub, Net.IsLeaf, Net.NumberOfChildren, Parent, Tidy, Net.NMajority, TreeInv, Step, Single, Merge,
         Gathered.Verifies;
    var p, s' := Parent(net.n, net.m, j), Step(net, s, Checked(j, 0));
    CheckedShape(net, s, j);
    NewMessage(net, s, j);
    NotLeaf(net, p, j);
    NeedsTwo(net, p);
    GainedStep(net, s, s', p, j);
    GainedBounds(net, s', p);
    OwnSubtree(net, p);
    NodeOf(net, s, p);
    var was := if s.certs[p].Some? then s.certs[p].value else Single(p);
    ReceiveTidy(p, net.NumberOfChildren(p) + 1, p in s.voted, s.certs[p], s.sent[p], s.sent[j][0],
                Gained(net, s, p) + {p}, Gained(net, s', p) + {p}, Sub(net, p),
                !net.IsLeaf(j) && |was.signers| >= net.NMajority(), s'.certs[p], s'.sent[p]);
  }

  lemma CheckedTidy(net: Net, s: State, j: nat)
    requires TreeInv(net, s) && Enabled(net, s, Checked(j, 0))
    ensures TreeInv(net, Step(net, s, Checked(j, 0)))
  {
    hide Gained, Sub, Net.IsLeaf, Net.NumberOfChildren, Parent, Tidy, NodeTidy, RootTidy, Net.NMajority, Step;
    var p, s' := Parent(net.n, net.m, j), Step(net, s, Checked(j, 0));
    if p != 0 {
      CheckedShape(net, s, j);
      CheckedBelowRoot(net, s, j);
    } else {
      CheckedAtRoot(net, s, j);
    }
    Gaining(net, s, s', j);
    OthersTidy(net, s, s', p);
  }

  lemma RootOf(net: Net, s: State)
    requires TreeInv(net, s)
    ensures net.Valid() && Shaped(net, s) && RootTidy(net, s)
  {
    hide NodesTidy;
  }

  /** Adding g to the root's certificate, unless it is ignored. */
  lemma RootReceives(net: Net, s: State, relayed: bool, g: Gathered, heard: set<nat>)
    requires net.Valid() && Shaped(net, s) && s.certs[0].Some?
    requires s.certs[0].value.Verifies() && s.certs[0].value.signers <= heard && g.Verifies() && g.signers !! heard
    ensures var s', was := Receive(net, s, 0, relayed, g), s.certs[0].value;
      && s' == s.(certs := s.certs[0 := s'.certs[0]], finished := s'.finished)
      && s'.certs[0].Some? && s'.certs[0].value.Verifies() && s'.certs[0].value.signers <= heard + g.signers
      && was.signers <= s'.certs[0].value.signers
      && s'.finished == s.finished +
           if |s'.certs[0].value.signers| >= net.NMajority() && (|was.signers| < net.NMajority() || !relayed)
           then 1 else 0
  {
    hide Net.NMajority, Net.NumberOfChildren;
    var was := s.certs[0].value;
    assert was == Each(was.signers) && g == Each(g.signers);
    MergeDisjoint(was.signers, g.signers);
    assert s.certs[0 := s.certs[0]] == s.certs;
  }

  lemma CheckedAtRoot(net: Net, s: State, j: nat)
    requires TreeInv(net, s) && Enabled(net, s, Checked(j, 0)) && Parent(net.n, net.m, j) == 0
    ensures var s' := Step(net, s, Checked(j, 0));
      && Shaped(net, s') && s'.voted == s.voted && s'.arrived == s.arrived + {(j, 0)} && s'.taken == s.taken
      && (forall u | 1 <= u < net.n :: s'.certs[u] == s.certs[u]) && s'.sent == s.sent
      && RootTidy(net, s') && s.certs[0].Some?
    ensures var s', was := Step(net, s, Checked(j, 0)), s.certs[0].value;
      && was.signers <= s'.certs[0].value.signers
      && s'.finished == s.finished +
           if |s'.certs[0].value.signers| >= net.NMajority() && (|was.signers| < net.NMajority() || net.IsLeaf(j))
           then 1 else 0
  {
    hide Gained, Sub, Net.IsLeaf, Net.NumberOfChildren, Parent, Net.NMajority, TreeInv, Gathered.Verifies, Receive,
         Base;
    var s' := Step(net, s, Checked(j, 0));
    RootOf(net, s);
    NewMessage(net, s, j);
    GainedStep(net, s, s', 0, j);
    RootReceives(net, s, !net.IsLeaf(j), s.sent[j][0], Base(net) + Gained(net, s, 0));
  }

  lemma OnlyFirst(net: Net, s: State, e: Event)
    requires TreeInv(net, s) && Enabled(net, s, e)
    ensures !e.Cast? ==> e.k == 0
  {
    if !e.Cast? {
      assert NodeTidy(net, s, e.j);
    }
  }

  lemma StepTidy(net: Net, s: State, e: Event)
    requires TreeInv(net, s) && Enabled(net, s, e)
    ensures TreeInv(net, Step(net, s, e))
  {
    OnlyFirst(net, s, e);
    match e {
      case Cast(v) => CastTidy(net, s, v);
      case Arrive(j, k) => TakeTidy(net, s, j);
      case Checked(j, k) => CheckedTidy(net, s, j);
    }
  }

  lemma {:induction false} RunTidy(net: Net, ss: seq<State>, es: seq<Event>, i: nat)
    requires IsRun(net, ss, es) && i < |ss|
    ensures TreeInv(net, ss[i])
  {
    hide TreeInv, Step, Enabled;
    if i == 0 {
      InitialTidy(net);
    } else {
      RunTidy(net, ss, es, i - 1);
      assert StepAt(net, ss, es, i - 1);
      StepTidy(net, ss[i - 1], es[i - 1]);
    }
  }

  // ---------- whole runs ----------

  /** In every tree, patient or not, at every moment of every run: a replica below the root has sent at most once; what
    * it has sent verifies, has its own signature, and is of its subtree.  A replica without children has sent its vote
    * exactly if it has voted; any other has sent exactly if more have signed its certificate than it counts children,
    * and that certificate is then as it sent it.  Every certificate verifies. */
  lemma SendsOnce(net: Net, ss: seq<State>, es: seq<Event>, i: nat, v: nat)
    requires IsRun(net, ss, es) && i < |ss| && 1 <= v < net.n
    ensures Shaped(net, ss[i]) && |ss[i].sent[v]| <= 1
    ensures ss[i].certs[v].Some? ==> ss[i].certs[v].value.Verifies()
    ensures ss[i].sent[v] != [] ==>
      var g := ss[i].sent[v][0];
      g.Verifies() && v in g.signers && g.signers <= Sub(net, v) && (!net.IsLeaf(v) ==> ss[i].certs[v] == Some(g))
    ensures net.IsLeaf(v) ==> ss[i].sent[v] == if v in ss[i].voted then [Single(v)] else []
    ensures !net.IsLeaf(v) ==>
      (ss[i].sent[v] != [] <==>
        ss[i].certs[v].Some? && |ss[i].certs[v].value.signers| > net.NumberOfChildren(v))
  {
    hide IsRun, Sub, Gained, Net.IsLeaf, Net.NumberOfChildren;
    RunTidy(net, ss, es, i);
    assert NodeTidy(net, ss[i], v);
  }

  predicate Complete(net: Net, s: State)
    requires net.n >= 1
  {
    Shaped(net, s) && s.certs[0].Some? && |s.certs[0].value.signers| >= net.NMajority()
  }

  /** A single vote that the root adds although its certificate has a quorum. */
  ghost predicate LateVote(net: Net, s: State, e: Event)
    requires net.n >= 1
  {
    e.Checked? && IsChild(net.n, net.m, 0, e.j) && net.IsLeaf(e.j) && Complete(net, s)
  }

  ghost function LateVotes(net: Net, ss: seq<State>, es: seq<Event>, i: nat): nat
    requires net.n >= 1 && i <= |es| && i <= |ss|
  {
    if i == 0 then 0 else LateVotes(net, ss, es, i - 1) + if LateVote(net, ss[i - 1], es[i - 1]) then 1 else 0
  }

  lemma StepFinishes(net: Net, s: State, e: Event)
    requires TreeInv(net, s) && Enabled(net, s, e)
    ensures var s' := Step(net, s, e);
      s'.finished == s.finished + (if !Complete(net, s) && Complete(net, s') then 1 else 0)
                                + (if LateVote(net, s, e) then 1 else 0)
    ensures Complete(net, s) ==> Complete(net, Step(net, s, e))
  {
    OnlyFirst(net, s, e);
    StepTidy(net, s, e);
    match e {
      case Cast(v) =>
        hide Net.IsLeaf, NodesTidy, Net.NMajority;
      case Arrive(j, k) =>
        hide Net.IsLeaf, NodesTidy, Net.NMajority, Parent;
      case Checked(j, k) =>
        if Parent(net.n, net.m, j) == 0 {
          CheckedAtRoot(net, s, j);
          RootGrows(net, s, Step(net, s, e));
        } else {
          hide Net.IsLeaf, NodesTidy, Net.NMajority;
        }
    }
  }

  lemma RootGrows(net: Net, s: State, s': State)
    requires net.n >= 1 && s.certs != [] && s'.certs != [] && s.certs[0].Some? && s'.certs[0].Some?
    requires s.certs[0].value.signers <= s'.certs[0].value.signers
    ensures |s.certs[0].value.signers| <= |s'.certs[0].value.signers|
  {
    SubsetSize(s.certs[0].value.signers, s'.certs[0].value.signers);
  }

  lemma InitialIncomplete(net: Net)
    requires net.Valid()
    ensures !Complete(net, Initial(net))
  {
    assert Initial(net).certs[0] == Some(if net.rootSigns then Single(0) else Gathered({}, multiset{}));
    assert net.NMajority() >= 2;
  }

  /** In every tree, at every moment of every run, the root has passed its certificate on once for having become
    * complete, if it has, and once more for every single vote that came after. */
  lemma {:induction false} FinishedCount(net: Net, ss: seq<State>, es: seq<Event>, i: nat)
    requires IsRun(net, ss, es) && i < |ss|
    ensures i <= |es|
    ensures ss[i].finished == LateVotes(net, ss, es, i) + if Complete(net, ss[i]) then 1 else 0
  {
    hide Step, Enabled, TreeInv, Complete, LateVote;
    if i == 0 {
      InitialIncomplete(net);
    } else {
      RunTidy(net, ss, es, i - 1);
      assert StepAt(net, ss, es, i - 1);
      StepFinishes(net, ss[i - 1], es[i - 1]);
      FinishedCount(net, ss, es, i - 1);
    }
  }
}
