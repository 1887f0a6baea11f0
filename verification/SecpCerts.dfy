/** The quorum certificate that stores one signature per signer. */
module SecpCerts {
  import opened Blocks
  import opened Certs

  datatype Ec<S> = Ec(objHash: Hash, rids: seq<bool>, sigs: map<nat, S>) {
    /** A bit is set exactly for the signers whose signature is stored. */
    predicate Matched() {
      sigs.Keys == Signers(rids)
    }
  }

  datatype EcPart<S> = EcPart(objHash: Hash, sig: S)

  /** Insertion does not overwrite. */
  function WithSig<S>(c: Ec<S>, rid: nat, pc: EcPart<S>): Option<Ec<S>>
    requires rid < |c.rids|
  {
    if pc.objHash != c.objHash then None
    else Some(c.(sigs := map[rid := pc.sig] + c.sigs, rids := c.rids[rid := true]))
  }

  function WithSigs<S>(c: Ec<S>, d: Ec<S>): Option<Ec<S>> {
    if d.objHash != c.objHash then None
    else Some(c.(sigs := d.sigs + c.sigs, rids := BitsOr(c.rids, d.sigs.Keys)))
  }

  function BitsOr(rids: seq<bool>, keys: set<nat>): seq<bool> {
    seq(|rids|, i requires 0 <= i < |rids| => rids[i] || i in keys)
  }

  class QuorumCertSecp256k1<S(0)> {
    var objHash: Hash
    var rids: seq<bool>
    var sigs: map<nat, S>

    function Value(): Ec<S>
      reads this
    {
      Ec(objHash, rids, sigs)
    }

    constructor (nreplicas: nat, objHash: Hash)
      ensures Value() == Ec(objHash, seq(nreplicas, i => false), map[]) && Value().Matched()
    {
      this.objHash, rids, sigs := objHash, seq(nreplicas, i => false), map[];
    }

    method AddPart(rid: nat, pc: EcPart<S>) returns (thrown: bool)
      requires rid < |rids| && Value().Matched()
      modifies this
      ensures thrown <==> pc.objHash != old(objHash)
      ensures thrown ==> Value() == old(Value())
      ensures !thrown ==> WithSig(old(Value()), rid, pc) == Some(Value())
      ensures Value().Matched()
    {
      if pc.objHash != objHash {
        return true;
      }
      ghost var before := sigs;
      if rid !in sigs {
        sigs := sigs[rid := pc.sig];
      }
      rids := rids[rid := true];
      assert sigs == map[rid := pc.sig] + before;
      SignersOps(old(rids), rids, rid);
      thrown := false;
    }

    method MergeQuorum(qc: QuorumCertSecp256k1<S>) returns (thrown: bool)
      requires qc != this && Value().Matched() && qc.Value().Matched() && |qc.rids| == |rids|
      modifies this
      ensures thrown <==> qc.objHash != old(objHash)
      ensures thrown ==> Value() == old(Value())
      ensures !thrown ==> WithSigs(old(Value()), qc.Value()) == Some(Value())
      ensures Value().Matched()
    {
      if qc.objHash != objHash {
        return true;
      }
      ghost var before := Value();
      var todo := qc.sigs.Keys;
      while todo != {}
        invariant todo <= qc.sigs.Keys && objHash == before.objHash
        invariant sigs.Keys == before.sigs.Keys + (qc.sigs.Keys - todo)
        invariant forall i | i in sigs :: sigs[i] == if i in before.sigs then before.sigs[i] else qc.sigs[i]
        invariant |rids| == |before.rids|
        invariant forall i | 0 <= i < |rids| :: rids[i] == (before.rids[i] || i in qc.sigs.Keys - todo)
        decreases todo
      {
        var i :| i in todo;
        assert i in Signers(qc.rids);
        if i !in sigs {
          sigs := sigs[i := qc.sigs[i]];
        }
        rids := rids[i := true];
        todo := todo - {i};
      }
      assert rids == BitsOr(before.rids, qc.sigs.Keys);
      assert sigs == qc.sigs + before.sigs;
      MatchedMerge(before, qc.Value());
      thrown := false;
    }

    method HasN(t: nat) returns (enough: bool)
      requires Value().Matched()
      ensures enough <==> |Signers(rids)| >= t
    {
      enough := |sigs| >= t;
      assert |sigs| == |sigs.Keys|;
    }

    /** Every stored signature is checked against its signer's key. */
    method Verify(valid: (nat, S) -> bool) returns (ok: bool)
      requires Value().Matched()
      ensures ok <==> forall i | i in sigs :: valid(i, sigs[i])
    {
      var i := 0;
      while i < |rids|
        invariant 0 <= i <= |rids|
        invariant forall k | 0 <= k < i && k in sigs :: valid(k, sigs[k])
      {
        if rids[i] {
          assert i in Signers(rids);
          if !valid(i, sigs[i]) {
            return false;
          }
        }
        i := i + 1;
      }
      ok := true;
      forall k | k in sigs ensures valid(k, sigs[k]) {
        assert k in Signers(rids);
      }
    }
  }

  lemma MatchedMerge<S>(c: Ec<S>, d: Ec<S>)
    requires c.Matched() && d.Matched() && |c.rids| == |d.rids| && c.objHash == d.objHash
    ensures WithSigs(c, d).value.Matched()
  {
    assert forall i | 0 <= i < |c.rids| :: i in d.sigs.Keys <==> i in Signers(d.rids);
  }

  /** How a per-signer certificate came about. */
  datatype EcRecipe<S> =
    | EcEmpty
    | EcAdded(base: EcRecipe<S>, rid: nat, sig: S)
    | EcMerged(base: EcRecipe<S>, other: EcRecipe<S>)

  predicate EcBuildable<S>(n: nat, r: EcRecipe<S>) {
    match r
    case EcEmpty => true
    case EcAdded(base, rid, _) => rid < n && EcBuildable(n, base)
    case EcMerged(base, other) => EcBuildable(n, base) && EcBuildable(n, other)
  }

  /** The contributions in the order they went in. */
  function Contributions<S>(r: EcRecipe<S>): seq<(nat, S)> {
    match r
    case EcEmpty => []
    case EcAdded(base, rid, sig) => Contributions(base) + [(rid, sig)]
    case EcMerged(base, other) => Contributions(base) + Contributions(other)
  }

  /** Each signer's first contribution. */
  function FirstOf<S>(cs: seq<(nat, S)>): map<nat, S> {
    if cs == [] then map[] else FirstOf(cs[1..])[cs[0].0 := cs[0].1]
  }

  lemma {:induction false} FirstOfConcat<S>(a: seq<(nat, S)>, b: seq<(nat, S)>)
    ensures FirstOf(a + b) == FirstOf(b) + FirstOf(a)
  {
    if a == [] {
      assert a + b == b;
    } else {
      assert (a + b)[1..] == a[1..] + b;
      FirstOfConcat(a[1..], b);
    }
  }

  /** The certificate stores, bit and signature, the first contribution of every signer, through any merges. */
  function EcBuild<S>(n: nat, objHash: Hash, r: EcRecipe<S>): (c: Ec<S>)
    requires EcBuildable(n, r)
    ensures c.objHash == objHash && |c.rids| == n && c.Matched()
    ensures c.sigs == FirstOf(Contributions(r))
  {
    match r
    case EcEmpty =>
      Ec(objHash, seq(n, i => false), map[])
    case EcAdded(base, rid, sig) =>
      var c := EcBuild(n, objHash, base);
      FirstOfConcat(Contributions(base), [(rid, sig)]);
      SignersOps(c.rids, c.rids, rid);
      WithSig(c, rid, EcPart(objHash, sig)).value
    case EcMerged(base, other) =>
      var c, d := EcBuild(n, objHash, base), EcBuild(n, objHash, other);
      FirstOfConcat(Contributions(base), Contributions(other));
      MatchedMerge(c, d);
      WithSigs(c, d).value
  }

  ghost predicate SameContributions<S>(a: seq<(nat, S)>, b: seq<(nat, S)>) {
    (forall c | c in a :: c in b) && (forall c | c in b :: c in a)
  }

  /** No signer contributes two different signatures. */
  ghost predicate OneEach<S>(a: seq<(nat, S)>) {
    forall c, d | c in a && d in a && c.0 == d.0 :: c == d
  }

  lemma FirstOfSame<S>(a: seq<(nat, S)>, b: seq<(nat, S)>)
    requires SameContributions(a, b)
    ensures FirstOf(a).Keys == FirstOf(b).Keys
    ensures OneEach(a) ==> FirstOf(a) == FirstOf(b)
  {
    FirstOfFrom(a);
    FirstOfFrom(b);
    hide FirstOf;
    forall i ensures i in FirstOf(a) <==> i in FirstOf(b) {
      if i in FirstOf(a) {
        assert (i, FirstOf(a)[i]) in b;
      }
      if i in FirstOf(b) {
        assert (i, FirstOf(b)[i]) in a;
      }
    }
    if OneEach(a) {
      forall i | i in FirstOf(a) ensures FirstOf(a)[i] == FirstOf(b)[i] {
        assert (i, FirstOf(a)[i]) in a && (i, FirstOf(b)[i]) in a;
      }
    }
  }

  /** Merge order cannot change who has signed, nor the signatures when each signer contributes one. */
  lemma EcOrder<S>(n: nat, objHash: Hash, r1: EcRecipe<S>, r2: EcRecipe<S>)
    requires EcBuildable(n, r1) && EcBuildable(n, r2)
    requires SameContributions(Contributions(r1), Contributions(r2))
    ensures EcBuild(n, objHash, r1).rids == EcBuild(n, objHash, r2).rids
    ensures OneEach(Contributions(r1)) ==> EcBuild(n, objHash, r1) == EcBuild(n, objHash, r2)
  {
    FirstOfSame(Contributions(r1), Contributions(r2));
    hide FirstOf, Contributions, EcBuildable, OneEach, SameContributions;
    var c, d := EcBuild(n, objHash, r1), EcBuild(n, objHash, r2);
    hide EcBuild;
    SameBits(c.rids, d.rids);
  }

  lemma {:induction false} FirstOfFrom<S>(cs: seq<(nat, S)>)
    ensures forall i | i in FirstOf(cs) :: (i, FirstOf(cs)[i]) in cs
    ensures forall c | c in cs :: c.0 in FirstOf(cs)
  {
    if cs != [] {
      FirstOfFrom(cs[1..]);
      assert cs == [cs[0]] + cs[1..];
    }
  }
}
