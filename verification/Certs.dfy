/** The aggregate quorum certificate, and the signer bitmap both kinds of certificate carry. */
module Certs {
  import opened Blocks
  import opened BlsScheme
  import Bytes

  type Hash = Bytes.Hash

  // ---------- the signer bitmap ----------

  function Signers(rids: seq<bool>): set<nat> {
    set i | 0 <= i < |rids| && rids[i]
  }

  function MergeBits(a: seq<bool>, b: seq<bool>): seq<bool>
    requires |a| == |b|
  {
    seq(|a|, i requires 0 <= i < |a| => a[i] || b[i])
  }

  lemma NoBits(a: seq<bool>)
    requires a == []
    ensures Signers(a) == {}
  {
  }

  lemma OneMoreBit(a: seq<bool>, i: nat)
    requires i < |a|
    ensures |Signers(a[..i + 1])| == |Signers(a[..i])| + if a[i] then 1 else 0
  {
    assert Signers(a[..i + 1]) == Signers(a[..i]) + if a[i] then {i} else {};
  }

  lemma SignersOps(a: seq<bool>, b: seq<bool>, i: nat)
    requires |a| == |b| && i < |a|
    ensures Signers(a[i := true]) == Signers(a) + {i}
    ensures Signers(MergeBits(a, b)) == Signers(a) + Signers(b)
  {
  }

  // ---------- the aggregate certificate ----------

  datatype Part = Part(objHash: Hash, sig: nat)

  /** rids: who has signed.  theSig: the aggregate, once computed.  sigs: what is still to be summed.
    * n: the cached number of signers. */
  datatype Agg = Agg(objHash: Hash, rids: seq<bool>, theSig: Option<nat>, sigs: seq<nat>, n: nat) {
    predicate Valid(q: nat) {
      Elements(q, sigs) && (theSig.Some? ==> theSig.value < q)
    }

    /** Everything held, as a list of summands. */
    function Held(): seq<nat> {
      if theSig.Some? then sigs + [theSig.value] else sigs
    }

    /** The sum of everything held. */
    function Total(q: nat): nat
      requires q >= 1
    {
      Mod(Sum(Held()), q)
    }

    /** The cached count is that of the bitmap, and a computed aggregate has no loose signatures. */
    predicate Tidy() {
      n == |Signers(rids)| && (theSig.Some? ==> sigs == [])
    }
  }

  function Fresh(nreplicas: nat, objHash: Hash): Agg {
    Agg(objHash, seq(nreplicas, i => false), None, [], 0)
  }

  /** An aggregate goes back to the loose signatures before more are added. */
  function Loosen(c: Agg): Agg {
    if c.sigs == [] && c.theSig.Some? then c.(sigs := [c.theSig.value], theSig := None) else c
  }

  function WithBits(c: Agg, rids: seq<bool>): Agg {
    c.(rids := rids, n := |Signers(rids)|)
  }

  function WithPart(c: Agg, rid: nat, pc: Part): Option<Agg>
    requires rid < |c.rids|
  {
    if pc.objHash != c.objHash then None
    else
      var c1 := Loosen(WithBits(c, c.rids[rid := true]));
      Some(c1.(sigs := c1.sigs + [pc.sig]))
  }

  function WithQuorum(c: Agg, d: Agg): Option<Agg>
    requires |c.rids| == |d.rids|
  {
    if d.objHash != c.objHash then None
    else
      var c1 := Loosen(WithBits(c, MergeBits(c.rids, d.rids)));
      Some(c1.(sigs := c1.sigs + d.Held()))
  }

  function Aggregated(q: nat, c: Agg): Agg
    requires q >= 1
  {
    if c.theSig.Some? then c else c.(theSig := Some(Mod(Sum(c.sigs), q)), sigs := [])
  }

  /** The copy constructor leaves the loose signatures and the cached count behind. */
  function Copied(c: Agg): Agg {
    c.(sigs := [], n := 0)
  }

  /** What a certificate puts on the wire, or the exception that it is not aggregated. */
  datatype Encoded<S> = Encoded(objHash: Hash, rids: seq<bool>, sig: Option<S>) | NotAggregated

  function Encode(c: Agg): Encoded<nat> {
    if c.theSig.Some? && c.sigs != [] then NotAggregated
    else Encoded(c.objHash, c.rids, c.theSig)
  }

  function Decode(e: Encoded<nat>): Agg
    requires e.Encoded?
  {
    Agg(e.objHash, e.rids, e.sig, [], |Signers(e.rids)|)
  }

  class QuorumCertAggBLS {
    const q: nat
    var objHash: Hash
    var rids: seq<bool>
    var theSig: Option<nat>
    var sigs: seq<nat>
    var n: nat

    function Value(): Agg
      reads this
    {
      Agg(objHash, rids, theSig, sigs, n)
    }

    ghost predicate Valid()
      reads this
    {
      q >= 1 && Value().Valid(q)
    }

    constructor (q: nat, nreplicas: nat, objHash: Hash)
      requires q >= 1
      ensures Valid() && this.q == q
      ensures Value() == Fresh(nreplicas, objHash)
    {
      this.q, this.objHash, rids := q, objHash, seq(nreplicas, i => false);
      theSig, sigs, n := None, [], 0;
    }

    method CalculateN()
      requires Valid()
      modifies this`n
      ensures Valid() && Value() == old(Value()).(n := |Signers(rids)|)
    {
      hide Signers;
      n := 0;
      var i := 0;
      assert |Signers(rids[..0])| == 0 by {
        NoBits(rids[..0]);
      }
      while i < |rids|
        invariant 0 <= i <= |rids|
        invariant n == |Signers(rids[..i])|
        invariant Valid()
      {
        OneMoreBit(rids, i);
        if rids[i] {
          n := n + 1;
        }
        i := i + 1;
      }
      assert rids[..|rids|] == rids;
    }

    method LoosenSig()
      requires Valid()
      modifies this`sigs, this`theSig
      ensures Valid() && Value() == Loosen(old(Value()))
    {
      if sigs == [] && theSig.Some? {
        sigs := [theSig.value];
        theSig := None;
      }
    }

    method AddPart(rid: nat, pc: Part) returns (thrown: bool)
      requires Valid() && rid < |rids| && pc.sig < q
      modifies this
      ensures Valid()
      ensures thrown <==> pc.objHash != old(objHash)
      ensures thrown ==> Value() == old(Value())
      ensures !thrown ==> WithPart(old(Value()), rid, pc) == Some(Value())
    {
      if pc.objHash != objHash {
        return true;
      }
      rids := rids[rid := true];
      CalculateN();
      LoosenSig();
      sigs := sigs + [pc.sig];
      thrown := false;
    }

    method MergeQuorum(qc: QuorumCertAggBLS) returns (thrown: bool)
      requires Valid() && qc != this && qc.Valid() && qc.q == q && |qc.rids| == |rids|
      modifies this
      ensures Valid()
      ensures thrown <==> qc.objHash != old(objHash)
      ensures thrown ==> Value() == old(Value())
      ensures !thrown ==> WithQuorum(old(Value()), qc.Value()) == Some(Value())
    {
      if qc.objHash != objHash {
        return true;
      }
      ghost var before := Value();
      var i := 0;
      while i < |qc.rids|
        invariant 0 <= i <= |qc.rids| == |rids| == |before.rids|
        invariant forall k | 0 <= k < |rids| :: rids[k] == (before.rids[k] || (k < i && qc.rids[k]))
        invariant Value() == before.(rids := rids)
      {
        if qc.rids[i] {
          rids := rids[i := true];
        }
        i := i + 1;
      }
      assert rids == MergeBits(before.rids, qc.rids);
      CalculateN();
      LoosenSig();
      ghost var loose := Value();
      i := 0;
      while i < |qc.sigs|
        invariant 0 <= i <= |qc.sigs|
        invariant Value() == loose.(sigs := loose.sigs + qc.sigs[..i])
        invariant Valid()
      {
        sigs := sigs + [qc.sigs[i]];
        i := i + 1;
      }
      assert qc.sigs[..i] == qc.sigs;
      if qc.theSig.Some? {
        sigs := sigs + [qc.theSig.value];
      }
      assert Value() == loose.(sigs := loose.sigs + qc.Value().Held());
      thrown := false;
    }

    method Compute()
      requires Valid()
      modifies this`theSig, this`sigs
      ensures Valid() && Value() == Aggregated(q, old(Value()))
    {
      if theSig.None? {
        var sig := Aggregate(q, sigs);
        theSig := Some(sig);
        sigs := [];
      }
    }

    method HasN(t: nat) returns (enough: bool)
      requires Valid()
      ensures Value().Tidy() ==> (enough <==> |Signers(rids)| >= t)
      ensures enough <==> Value().n >= t
    {
      enough := n >= t;
    }

    method Clone() returns (c: QuorumCertAggBLS)
      requires Valid()
      ensures fresh(c) && c.Valid() && c.q == q && c.Value() == Copied(Value())
    {
      c := new QuorumCertAggBLS(q, 0, objHash);
      c.rids := rids;
      if theSig.Some? {
        c.theSig := Some(theSig.value);
      }
    }

    method Serialize() returns (e: Encoded<nat>)
      ensures e == Encode(Value())
      ensures Value().Tidy() ==> e != NotAggregated
    {
      var combined := theSig.Some?;
      if combined {
        if sigs != [] {
          return NotAggregated;
        }
        return Encoded(objHash, rids, theSig);
      }
      e := Encoded(objHash, rids, None);
    }

    /** Reading into a certificate made by the default constructor. */
    method Unserialize(e: Encoded<nat>)
      requires Valid() && theSig.None? && sigs == []
      requires e.Encoded? && (e.sig.Some? ==> e.sig.value < q)
      modifies this
      ensures Valid() && Value() == Decode(e) && Value().Tidy()
    {
      objHash, rids := e.objHash, e.rids;
      CalculateN();
      if e.sig.Some? {
        theSig := Some(e.sig.value);
      }
    }

    /** The keys of the signers are collected and the aggregate checked against them. */
    method Verify(pubkeys: seq<nat>, h: nat) returns (ok: bool)
      requires Valid() && |pubkeys| == |rids| && Elements(q, pubkeys)
      ensures ok <==> Verifies(q, Value(), pubkeys, h)
    {
      if theSig.None? {
        return false;
      }
      var pubs, i := [], 0;
      while i < |rids|
        invariant 0 <= i <= |rids|
        invariant pubs == KeysOf(rids[..i], pubkeys[..i]) && Elements(q, pubs)
      {
        assert rids[..i + 1][..i] == rids[..i] && pubkeys[..i + 1][..i] == pubkeys[..i];
        if rids[i] {
          pubs := pubs + [pubkeys[i]];
        }
        i := i + 1;
      }
      assert rids[..i] == rids && pubkeys[..i] == pubkeys;
      ok := FastAggregateVerify(q, pubs, h, theSig.value);
    }
  }

  /** The keys of the replicas in the bitmap, in order. */
  function KeysOf(rids: seq<bool>, pubkeys: seq<nat>): seq<nat>
    requires |rids| == |pubkeys|
  {
    if rids == [] then []
    else
      var k := |rids| - 1;
      KeysOf(rids[..k], pubkeys[..k]) + if rids[k] then [pubkeys[k]] else []
  }

  /** The verdict on an aggregate certificate. */
  predicate Verifies(q: nat, c: Agg, pubkeys: seq<nat>, h: nat)
    requires q >= 1 && |pubkeys| == |c.rids|
  {
    c.theSig.Some? && FastVerifies(q, KeysOf(c.rids, pubkeys), h, c.theSig.value)
  }

  // ---------- conservation ----------

  lemma SumOne(xs: seq<nat>, x: nat)
    ensures Sum(xs + [x]) == Sum(xs) + x
  {
    assert (xs + [x])[..|xs|] == xs;
  }

  /** Adding a part adds its signature to the total, and nothing else. */
  lemma AddConserves(q: nat, c: Agg, rid: nat, pc: Part)
    requires q >= 1 && rid < |c.rids| && pc.objHash == c.objHash && c.Tidy()
    ensures WithPart(c, rid, pc).Some?
    ensures var d := WithPart(c, rid, pc).value;
      && d.Tidy() && d.objHash == c.objHash && |d.rids| == |c.rids|
      && Signers(d.rids) == Signers(c.rids) + {rid}
      && d.Total(q) == Mod(c.Total(q) + pc.sig, q)
  {
    var d := WithPart(c, rid, pc).value;
    SignersOps(c.rids, c.rids, rid);
    assert Loosen(c).sigs == c.Held();
    assert d.Held() == c.Held() + [pc.sig];
    SumOne(c.Held(), pc.sig);
    ModAdd(Sum(c.Held()), pc.sig, q);
  }

  lemma ValidHeld(q: nat, c: Agg)
    ensures c.Valid(q) <==> Elements(q, c.Held())
  {
    if c.theSig.Some? {
      assert c.Held()[|c.sigs|] == c.theSig.value;
      assert forall i | 0 <= i < |c.sigs| :: c.Held()[i] == c.sigs[i];
    }
  }

  lemma ElementsConcat(q: nat, xs: seq<nat>, ys: seq<nat>)
    requires Elements(q, xs) && Elements(q, ys)
    ensures Elements(q, xs + ys)
  {
  }

  /** Merging adds the other certificate's total. */
  lemma MergeConserves(q: nat, c: Agg, e: Agg)
    requires q >= 1 && |c.rids| == |e.rids| && e.objHash == c.objHash && c.Tidy()
    ensures WithQuorum(c, e).Some?
    ensures var d := WithQuorum(c, e).value;
      && d.Tidy() && d.objHash == c.objHash && |d.rids| == |c.rids|
      && Signers(d.rids) == Signers(c.rids) + Signers(e.rids)
      && d.Total(q) == Mod(c.Total(q) + e.Total(q), q)
  {
    var d := WithQuorum(c, e).value;
    if |c.rids| > 0 {
      SignersOps(c.rids, e.rids, 0);
    } else {
      assert MergeBits(c.rids, e.rids) == [];
    }
    hide Mod, Sum, Signers, MergeBits, Elements;
    assert Loosen(c).sigs == c.Held();
    assert d.Held() == c.Held() + e.Held();
    SumConcat(c.Held(), e.Held());
    var s, t := Sum(c.Held()), Sum(e.Held());
    ModAdd(s, Mod(t, q), q);
    ModAdd(t, s, q);
  }

  lemma MergeValid(q: nat, c: Agg, e: Agg)
    requires |c.rids| == |e.rids| && e.objHash == c.objHash && c.Tidy() && c.Valid(q) && e.Valid(q)
    ensures WithQuorum(c, e).value.Valid(q)
  {
    hide Elements, Signers, MergeBits;
    var d := WithQuorum(c, e).value;
    assert d.Held() == c.Held() + e.Held();
    ValidHeld(q, c);
    ValidHeld(q, e);
    ValidHeld(q, d);
    ElementsConcat(q, c.Held(), e.Held());
  }

  lemma ComputeConserves(q: nat, c: Agg)
    requires q >= 1 && c.Tidy()
    ensures var d := Aggregated(q, c); d.Tidy() && d.theSig.Some? && d.Total(q) == c.Total(q) && d.rids == c.rids
    ensures c.Valid(q) ==> Aggregated(q, c).theSig == Some(c.Total(q))
  {
    assert Aggregated(q, c).Held() == [Aggregated(q, c).theSig.value];
    SumOne([], Aggregated(q, c).theSig.value);
    assert [] + [Aggregated(q, c).theSig.value] == [Aggregated(q, c).theSig.value];
    if c.theSig.Some? {
      assert c == Aggregated(q, c);
    }
  }

  // ---------- every certificate that can be built ----------

  /** How a certificate came about: any nesting of the operations, the relays of other replicas included.
    * A relayed certificate was computed, copied, sent and read. */
  datatype Recipe =
    | Empty
    | Added(base: Recipe, rid: nat)
    | Merged(base: Recipe, other: Recipe)
    | Computed(base: Recipe)
    | Relayed(base: Recipe)

  /** The replicas, the block's hash and its point, and the secret keys. */
  datatype Setting = Setting(q: nat, objHash: Hash, h: nat, keys: seq<nat>) {
    predicate Valid() {
      q >= 1 && Elements(q, keys)
    }

    /** The signature of replica i on the block. */
    function Sig(i: nat): nat
      requires q >= 1 && i < |keys|
    {
      Mod(keys[i] * h, q)
    }
  }

  predicate Buildable(s: Setting, r: Recipe) {
    match r
    case Empty => true
    case Added(base, rid) => rid < |s.keys| && Buildable(s, base)
    case Merged(base, other) => Buildable(s, base) && Buildable(s, other)
    case Computed(base) => Buildable(s, base)
    case Relayed(base) => Buildable(s, base)
  }

  /** The signers whose signatures went in, with multiplicity. */
  function Parts(r: Recipe): multiset<nat> {
    match r
    case Empty => multiset{}
    case Added(base, rid) => Parts(base) + multiset{rid}
    case Merged(base, other) => Parts(base) + Parts(other)
    case Computed(base) => Parts(base)
    case Relayed(base) => Parts(base)
  }

  function Support(m: multiset<nat>): set<nat> {
    set x | x in m
  }

  /** The keys of the parts, each as often as it occurs. */
  function Weight(keys: seq<nat>, m: multiset<nat>): nat {
    if keys == [] then 0
    else
      var k := |keys| - 1;
      Weight(keys[..k], m) + m[k] * keys[k]
  }

  lemma {:induction false} WeightAdd(keys: seq<nat>, a: multiset<nat>, b: multiset<nat>)
    ensures Weight(keys, a + b) == Weight(keys, a) + Weight(keys, b)
  {
    if keys != [] {
      var k := |keys| - 1;
      WeightAdd(keys[..k], a, b);
      assert (a[k] + b[k]) * keys[k] == a[k] * keys[k] + b[k] * keys[k];
    }
  }

  lemma {:induction false} WeightNone(keys: seq<nat>, m: multiset<nat>)
    requires forall i | 0 <= i < |keys| :: m[i] == 0
    ensures Weight(keys, m) == 0
  {
    if keys != [] {
      WeightNone(keys[..|keys| - 1], m);
    }
  }

  lemma {:induction false} WeightOne(keys: seq<nat>, i: nat)
    requires i < |keys|
    ensures Weight(keys, multiset{i}) == keys[i]
  {
    var k := |keys| - 1;
    if i == k {
      WeightNone(keys[..k], multiset{i});
    } else {
      WeightOne(keys[..k], i);
    }
  }

  /** The keys collected for the bitmap weigh what its signers weigh. */
  lemma {:induction false} KeysWeight(rids: seq<bool>, keys: seq<nat>, m: multiset<nat>)
    requires |rids| == |keys| && forall i | 0 <= i < |rids| :: m[i] == if rids[i] then 1 else 0
    ensures Sum(KeysOf(rids, keys)) == Weight(keys, m)
  {
    if rids != [] {
      var k := |rids| - 1;
      KeysWeight(rids[..k], keys[..k], m);
      if rids[k] {
        SumOne(KeysOf(rids[..k], keys[..k]), keys[k]);
        assert m[k] * keys[k] == 1 * keys[k];
      } else {
        assert m[k] * keys[k] == 0 * keys[k];
        assert KeysOf(rids, keys) == KeysOf(rids[..k], keys[..k]);
      }
    }
  }

  /** A certificate that holds exactly the signatures of the parts m. */
  predicate Holds(s: Setting, c: Agg, m: multiset<nat>)
    requires s.Valid()
  {
    && c.Valid(s.q) && c.Tidy() && c.objHash == s.objHash && |c.rids| == |s.keys|
    && Signers(c.rids) == Support(m)
    && c.Total(s.q) == Mod(Weight(s.keys, m) * s.h, s.q)
  }

  /** The certificate a recipe builds. */
  function Build(s: Setting, r: Recipe): (c: Agg)
    requires s.Valid() && Buildable(s, r)
    ensures Holds(s, c, Parts(r))
  {
    match r
    case Empty =>
      HoldsNothing(s);
      Fresh(|s.keys|, s.objHash)
    case Added(base, rid) =>
      var c := Build(s, base);
      HoldsAdded(s, c, Parts(base), rid);
      WithPart(c, rid, Part(s.objHash, s.Sig(rid))).value
    case Merged(base, other) =>
      var c, d := Build(s, base), Build(s, other);
      HoldsMerged(s, c, Parts(base), d, Parts(other));
      WithQuorum(c, d).value
    case Computed(base) =>
      var c := Build(s, base);
      ComputeConserves(s.q, c);
      Aggregated(s.q, c)
    case Relayed(base) =>
      var c := Build(s, base);
      ComputeConserves(s.q, c);
      Relay(s.q, Aggregated(s.q, c), 0);
      Decode(Encode(Copied(Aggregated(s.q, c))))
  }

  lemma HoldsNothing(s: Setting)
    requires s.Valid()
    ensures Holds(s, Fresh(|s.keys|, s.objHash), multiset{})
  {
    WeightNone(s.keys, multiset{});
    var c := Fresh(|s.keys|, s.objHash);
    assert Signers(c.rids) == {} == Support(multiset{});
    assert c.Held() == [] && Sum(c.Held()) == 0;
  }

  lemma HoldsAdded(s: Setting, c: Agg, m: multiset<nat>, rid: nat)
    requires s.Valid() && Holds(s, c, m) && rid < |s.keys|
    ensures var d := WithPart(c, rid, Part(s.objHash, s.Sig(rid)));
      d.Some? && Holds(s, d.value, m + multiset{rid})
  {
    hide Mod, Sum, Signers, Agg.Held, Weight;
    AddConserves(s.q, c, rid, Part(s.objHash, s.Sig(rid)));
    assert Support(m + multiset{rid}) == Support(m) + {rid};
    WeightAdd(s.keys, m, multiset{rid});
    WeightOne(s.keys, rid);
    SumOfProducts(s.q, Weight(s.keys, m), s.keys[rid], s.h);
  }

  lemma HoldsMerged(s: Setting, c: Agg, m: multiset<nat>, e: Agg, k: multiset<nat>)
    requires s.Valid() && Holds(s, c, m) && Holds(s, e, k)
    ensures var d := WithQuorum(c, e);
      d.Some? && Holds(s, d.value, m + k)
  {
    hide Mod, Sum, Signers, Agg.Held, Weight, MergeBits;
    MergeConserves(s.q, c, e);
    MergeValid(s.q, c, e);
    assert Support(m + k) == Support(m) + Support(k);
    WeightAdd(s.keys, m, k);
    SumOfProducts(s.q, Weight(s.keys, m), Weight(s.keys, k), s.h);
  }

  lemma SumOfProducts(q: nat, a: nat, b: nat, h: nat)
    requires q >= 1
    ensures Mod(Mod(a * h, q) + Mod(b * h, q), q) == Mod((a + b) * h, q)
  {
    ModAdd(a * h, Mod(b * h, q), q);
    ModAdd(b * h, a * h, q);
    assert (a + b) * h == a * h + b * h;
  }

  // ---------- what follows ----------

  /** What becomes of a certificate that is copied, sent and read.  A copy has lost its count: it answers has_n for 0
    * only.  It keeps the total if the certificate was computed, and nothing otherwise.  It is serialized without
    * exception, and the reader, who counts again, gets the certificate back exactly if it was computed or holds
    * nothing. */
  lemma Relay(q: nat, c: Agg, t: nat)
    requires q >= 1 && c.Tidy()
    ensures Copied(c).n >= t <==> t == 0
    ensures Copied(c).Total(q) == if c.theSig.Some? then c.Total(q) else 0
    ensures Encode(c) != NotAggregated && Encode(Copied(c)) != NotAggregated
    ensures Decode(Encode(Copied(c))) == c <==> c.theSig.Some? || c.sigs == []
    ensures Signers(Decode(Encode(Copied(c))).rids) == Signers(c.rids)
  {
    if c.theSig.Some? {
      assert Copied(c).Held() == c.Held();
    }
  }

  /** The parts beyond the first of each signer. */
  function Surplus(m: multiset<nat>): multiset<nat> {
    m - multiset(Support(m))
  }

  /** What a recipe builds, computed. */
  function Final(s: Setting, r: Recipe): (c: Agg)
    requires s.Valid() && Buildable(s, r)
    ensures Holds(s, c, Parts(r)) && c.theSig == Some(c.Total(s.q))
  {
    ComputeConserves(s.q, Build(s, r));
    Aggregated(s.q, Build(s, r))
  }

  /** Whether the parts m, each weighing its signature, sum to nothing. */
  predicate Weightless(s: Setting, m: multiset<nat>)
    requires s.Valid()
  {
    Mod(Weight(s.keys, m) * s.h, s.q) == 0
  }

  /** The verdict on what a recipe builds. */
  predicate Accepted(s: Setting, r: Recipe)
    requires s.Valid() && Buildable(s, r)
  {
    Verifies(s.q, Final(s, r), s.keys, s.h)
  }

  /** The sum of the keys of the signers of a certificate. */
  lemma KeySum(s: Setting, c: Agg, m: multiset<nat>)
    requires s.Valid() && Holds(s, c, m) && m != multiset{}
    ensures KeysOf(c.rids, s.keys) != []
    ensures Sum(KeysOf(c.rids, s.keys)) == Weight(s.keys, multiset(Support(m)))
  {
    BitsOf(c.rids, m);
    var x :| x in m;
    assert x in Signers(c.rids);
    SomeKey(c.rids, s.keys, x);
    hide KeysOf, Weight, Sum, Mod;
    KeysWeight(c.rids, s.keys, multiset(Support(m)));
  }

  lemma VerdictOf(s: Setting, c: Agg, m: multiset<nat>)
    requires s.Valid() && Holds(s, c, m) && c.theSig == Some(c.Total(s.q)) && m != multiset{}
    ensures Verifies(s.q, c, s.keys, s.h) <==> Weightless(s, Surplus(m))
  {
    hide Mod, Sum, Signers, Agg.Held, Weight, KeysOf, Support, Elements, Agg.Tidy;
    KeySum(s, c, m);
    var once, extra := multiset(Support(m)), Surplus(m);
    assert m == once + extra by {
      SupportOnce(m);
    }
    WeightAdd(s.keys, once, extra);
    SurplusVanishes(s.q, Weight(s.keys, once), Weight(s.keys, extra), s.h);
  }

  lemma Distribute(w: nat, e: nat, h: nat)
    ensures (w + e) * h == w * h + e * h
  {
  }

  lemma SurplusVanishes(q: nat, w: nat, e: nat, h: nat)
    requires q >= 1
    ensures Mod(w * h, q) == Mod((w + e) * h, q) <==> Mod(e * h, q) == 0
  {
    hide Mod;
    Distribute(w, e, h);
    var a, d: nat := w * h, e * h;
    ModDifference(a, d, q);
  }

  lemma SupportOnce(m: multiset<nat>)
    ensures multiset(Support(m)) <= m
  {
  }

  /** The verdict on any certificate that can be built, once computed: it is accepted exactly when the
    * surplus weighs nothing. */
  lemma AcceptedExactly(s: Setting, r: Recipe)
    requires s.Valid() && Buildable(s, r) && Parts(r) != multiset{}
    ensures Accepted(s, r) <==> Weightless(s, Surplus(Parts(r)))
  {
    hide Final, Mod, Weight, Surplus, Verifies, Parts;
    VerdictOf(s, Final(s, r), Parts(r));
  }

  /** A certificate is computed exactly if computing it, or reading it from a relay, came last. */
  lemma ComputedWhen(s: Setting, r: Recipe)
    requires s.Valid() && Buildable(s, r)
    ensures Build(s, r).theSig.Some? <==> r.Computed? || r.Relayed?
    ensures Build(s, r).theSig.Some? ==> Build(s, r).theSig == Some(Build(s, r).Total(s.q))
  {
    hide Signers, Support, Weight, MergeBits, Elements;
    var c := Build(s, r);
    match r {
      case Empty =>
      case Added(base, rid) =>
      case Merged(base, other) =>
      case Computed(base) =>
      case Relayed(base) =>
    }
    if c.theSig.Some? {
      ComputeConserves(s.q, c);
    }
  }

  /** The verdict on any certificate that can be built, as it is: one that was not computed, or that nobody has signed,
    * is rejected; any other is accepted exactly when the surplus weighs nothing. */
  lemma VerdictExactly(s: Setting, r: Recipe)
    requires s.Valid() && Buildable(s, r)
    ensures Verifies(s.q, Build(s, r), s.keys, s.h) <==>
      (r.Computed? || r.Relayed?) && Parts(r) != multiset{} && Weightless(s, Surplus(Parts(r)))
  {
    hide Build, Mod, Weight, Surplus, Parts, Buildable, Sum;
    var c := Build(s, r);
    ComputedWhen(s, r);
    if c.theSig.Some? {
      if Parts(r) == multiset{} {
        NobodysKeys(c.rids, s.keys);
      } else {
        hide Verifies;
        VerdictOf(s, c, Parts(r));
      }
    }
  }

  lemma NobodysKeys(rids: seq<bool>, keys: seq<nat>)
    requires |rids| == |keys| && Signers(rids) == {}
    ensures KeysOf(rids, keys) == []
  {
    if rids != [] {
      var k := |rids| - 1;
      assert !rids[k] && forall i | 0 <= i < k :: !rids[..k][i] by {
        forall i | 0 <= i < |rids| ensures !rids[i] {
          assert i !in Signers(rids);
        }
      }
      NobodysKeys(rids[..k], keys[..k]);
    }
  }

  lemma BitsOf(rids: seq<bool>, m: multiset<nat>)
    requires Signers(rids) == Support(m)
    ensures forall i | 0 <= i < |rids| :: multiset(Support(m))[i] == if rids[i] then 1 else 0
  {
    forall i | 0 <= i < |rids| ensures multiset(Support(m))[i] == if rids[i] then 1 else 0 {
      assert rids[i] <==> i in Signers(rids);
    }
  }

  lemma {:induction false} SomeKey(rids: seq<bool>, keys: seq<nat>, i: nat)
    requires |rids| == |keys| && i < |rids| && rids[i]
    ensures KeysOf(rids, keys) != []
  {
    var k := |rids| - 1;
    if i < k {
      SomeKey(rids[..k], keys[..k], i);
    }
  }

  /** With disjoint signer sets - every signer's signature in once - the aggregate is accepted,
    * whatever the order and nesting of the merges. */
  lemma DisjointAccepted(s: Setting, r: Recipe)
    requires s.Valid() && Buildable(s, r) && Parts(r) != multiset{}
    requires forall x :: Parts(r)[x] <= 1
    ensures Accepted(s, r)
  {
    AcceptedExactly(s, r);
    hide Final, Parts, Mod, Sum, Signers, Agg.Held, Weight, KeysOf, Verifies;
    assert Surplus(Parts(r)) == multiset{};
    WeightNone(s.keys, multiset{});
    assert Mod(0 * s.h, s.q) == 0;
  }

  /** One signature summed in twice makes the certificate fail, unless that signature is the infinity point. */
  lemma DoubleCountRejected(s: Setting, r: Recipe, i: nat)
    requires s.Valid() && Buildable(s, r) && i < |s.keys|
    requires Parts(r)[i] == 2 && forall x | x != i :: Parts(r)[x] <= 1
    ensures Accepted(s, r) <==> s.Sig(i) == 0
  {
    AcceptedExactly(s, r);
    hide Final, Parts, Mod, Sum, Signers, Agg.Held, Weight, KeysOf, Verifies;
    assert Surplus(Parts(r)) == multiset{i};
    WeightOne(s.keys, i);
  }

  /** The order of merging is immaterial: equal parts give equal signers, and equal aggregates once computed. */
  lemma OrderImmaterial(s: Setting, r1: Recipe, r2: Recipe)
    requires s.Valid() && Buildable(s, r1) && Buildable(s, r2) && Parts(r1) == Parts(r2)
    ensures Final(s, r1) == Final(s, r2)
  {
    hide Final, Parts, Buildable;
    SameCert(s, Final(s, r1), Final(s, r2), Parts(r1));
  }

  lemma SameCert(s: Setting, c: Agg, d: Agg, m: multiset<nat>)
    requires s.Valid() && Holds(s, c, m) && Holds(s, d, m)
    requires c.theSig == Some(c.Total(s.q)) && d.theSig == Some(d.Total(s.q))
    ensures c == d
  {
    SameBits(c.rids, d.rids);
  }

  lemma SameBits(a: seq<bool>, b: seq<bool>)
    requires |a| == |b| && Signers(a) == Signers(b)
    ensures a == b
  {
    forall i | 0 <= i < |a| ensures a[i] == b[i] {
      assert a[i] <==> i in Signers(a);
      assert b[i] <==> i in Signers(b);
    }
  }
}
