/** The parts of the BLS scheme the aggregate certificates rest on (draft-irtf-cfrg-bls-signature,
  * sections 2.8 and 3.3.4).
  *
  * The groups are cyclic of order q; an element is modelled by its exponent, so adding two points adds
  * exponents modulo q, and a pairing multiplies them.  A message is given by the exponent h of its
  * hash point, and the signature of key sk on it is sk * h. */
module BlsScheme {

  // ---------- arithmetic modulo q ----------

  function Mod(a: nat, q: nat): (r: nat)
    requires q >= 1
    ensures r < q && (a < q ==> r == a)
  {
    if a < q then a else Mod(a - q, q)
  }

  /** The remainder is the only number below q that differs from a by a multiple of q. */
  lemma {:induction false} ModUnique(a: nat, k: nat, r: nat, q: nat)
    requires q >= 1 && a == k * q + r && r < q
    ensures Mod(a, q) == r
  {
    if k > 0 {
      assert k * q == (k - 1) * q + q;
      ModUnique(a - q, k - 1, r, q);
    }
  }

  lemma ModMultiple(x: nat, k: nat, q: nat)
    requires q >= 1
    ensures Mod(x + k * q, q) == Mod(x, q)
  {
    assert x == x / q * q + x % q;
    assert x + k * q == (x / q + k) * q + x % q;
    ModUnique(x, x / q, x % q, q);
    ModUnique(x + k * q, x / q + k, x % q, q);
  }

  lemma ModAdd(a: nat, b: nat, q: nat)
    requires q >= 1
    ensures Mod(Mod(a, q) + b, q) == Mod(a + b, q)
  {
    ModUnique(a, a / q, a % q, q);
    ModMultiple(a % q + b, a / q, q);
    assert a == a / q * q + a % q;
  }

  lemma Regroup(k: nat, q: nat, r: nat, b: nat)
    ensures (k * q + r) * b == k * b * q + r * b
  {
    assert (k * q) * b == k * (q * b) == k * (b * q) == k * b * q;
  }

  lemma ModMul(a: nat, b: nat, q: nat)
    requires q >= 1
    ensures Mod(Mod(a, q) * b, q) == Mod(a * b, q)
  {
    var k, r := a / q, a % q;
    ModUnique(a, k, r, q);
    Regroup(k, q, r, b);
    ModMultiple(r * b, k * b, q);
    hide Mod;
  }

  /** Two numbers agree modulo q exactly when their difference vanishes. */
  lemma ModDifference(a: nat, d: nat, q: nat)
    requires q >= 1
    ensures Mod(a + d, q) == Mod(a, q) <==> Mod(d, q) == 0
  {
    ModAdd(a, d, q);
    var r, e := Mod(a, q), Mod(d, q);
    ModAdd(d, r, q);
    hide Mod;
    assert Mod(a + d, q) == Mod(r + e, q);
    if r + e >= q {
      ModMultiple(r + e - q, 1, q);
    }
  }

  // ---------- sums ----------

  function Sum(xs: seq<nat>): nat {
    if xs == [] then 0 else Sum(xs[..|xs| - 1]) + xs[|xs| - 1]
  }

  lemma {:induction false} SumConcat(xs: seq<nat>, ys: seq<nat>)
    ensures Sum(xs + ys) == Sum(xs) + Sum(ys)
  {
    if ys == [] {
      assert xs + ys == xs;
    } else {
      var k := |ys| - 1;
      SumConcat(xs, ys[..k]);
      assert (xs + ys)[..|xs + ys| - 1] == xs + ys[..k];
    }
  }

  lemma SumSplit(ys: seq<nat>, i: nat)
    requires i < |ys|
    ensures Sum(ys) == Sum(ys[..i] + ys[i + 1..]) + ys[i]
    ensures multiset(ys) == multiset(ys[..i] + ys[i + 1..]) + multiset{ys[i]}
  {
    var before, after := ys[..i], ys[i + 1..];
    var mid := before + [ys[i]];
    assert mid[..|mid| - 1] == before && mid[|mid| - 1] == ys[i];
    assert Sum(mid) == Sum(before) + ys[i];
    hide Sum;
    assert ys == mid + after;
    SumConcat(mid, after);
    SumConcat(before, after);
    SplitBag(before, ys[i], after);
  }

  lemma SplitBag(before: seq<nat>, x: nat, after: seq<nat>)
    ensures multiset(before + [x] + after) == multiset(before + after) + multiset{x}
  {
    assert multiset(before + after) == multiset(before) + multiset(after);
    assert multiset(before + [x] + after) == multiset(before) + multiset([x]) + multiset(after);
  }

  /** The order of the summands does not matter. */
  lemma {:induction false} SumOrder(xs: seq<nat>, ys: seq<nat>)
    requires multiset(xs) == multiset(ys)
    ensures Sum(xs) == Sum(ys)
  {
    if xs == [] {
      assert |ys| == |multiset(ys)| == 0;
    } else {
      var k, last := |xs| - 1, xs[|xs| - 1];
      assert last in multiset(xs);
      assert last in multiset(ys);
      var i :| 0 <= i < |ys| && ys[i] == last;
      SumSplit(xs, k);
      SumSplit(ys, i);
      assert xs[..k] + xs[k + 1..] == xs[..k];
      hide Sum;
      var rest := ys[..i] + ys[i + 1..];
      assert multiset(xs[..k]) + multiset{last} == multiset(rest) + multiset{last};
      assert multiset(xs[..k]) == multiset(xs[..k]) + multiset{last} - multiset{last} == multiset(rest);
      SumOrder(xs[..k], rest);
    }
  }

  predicate Elements(q: nat, xs: seq<nat>) {
    forall i | 0 <= i < |xs| :: xs[i] < q
  }

  /** Aggregation of points, the infinity point for none (section 2.8). */
  method Aggregate(q: nat, xs: seq<nat>) returns (ans: nat)
    requires q >= 1 && Elements(q, xs)
    ensures ans == Mod(Sum(xs), q)
  {
    hide Mod;
    var n := |xs|;
    if n <= 0 {
      return 0;
    }
    ans := xs[0];
    assert xs[..1] == [xs[0]] && xs[..1][..0] == [];
    var i := 1;
    while i < n
      invariant 1 <= i <= n && ans < q
      invariant ans == Mod(Sum(xs[..i]), q)
    {
      assert xs[..i + 1][..i] == xs[..i];
      ModAdd(Sum(xs[..i]), xs[i], q);
      ans := Mod(ans + xs[i], q);
      i := i + 1;
    }
    assert xs[..n] == xs;
  }

  // ---------- verification ----------

  /** The exponent of a product of pairings. */
  function Dot(ps: seq<nat>, hs: seq<nat>): nat
    requires |ps| == |hs|
  {
    if ps == [] then 0 else Dot(ps[..|ps| - 1], hs[..|hs| - 1]) + ps[|ps| - 1] * hs[|hs| - 1]
  }

  lemma {:induction false} DotConcat(p1: seq<nat>, h1: seq<nat>, p2: seq<nat>, h2: seq<nat>)
    requires |p1| == |h1| && |p2| == |h2|
    ensures Dot(p1 + p2, h1 + h2) == Dot(p1, h1) + Dot(p2, h2)
  {
    if p2 == [] {
      assert p1 + p2 == p1 && h1 + h2 == h1;
    } else {
      var k := |p2| - 1;
      DotConcat(p1, h1, p2[..k], h2[..k]);
      assert (p1 + p2)[..|p1 + p2| - 1] == p1 + p2[..k];
      assert (h1 + h2)[..|h1 + h2| - 1] == h1 + h2[..k];
    }
  }

  /** One multi-pairing over a chunk. */
  function MapSim(q: nat, ps: seq<nat>, hs: seq<nat>): nat
    requires q >= 1 && |ps| == |hs|
  {
    Mod(Dot(ps, hs), q)
  }

  function Done(i: nat, length: nat): nat {
    if i < length then i else length
  }

  /** The product over a prefix, and over the prefix with one more chunk. */
  lemma NextChunk(q: nat, ps: seq<nat>, hs: seq<nat>, i: nat, j: nat)
    requires q >= 1 && |ps| == |hs| && i <= j <= |ps|
    ensures Mod(Mod(Dot(ps[..i], hs[..i]), q) + MapSim(q, ps[i..j], hs[i..j]), q) == Mod(Dot(ps[..j], hs[..j]), q)
  {
    hide Mod, Dot;
    DotConcat(ps[..i], hs[..i], ps[i..j], hs[i..j]);
    assert ps[..j] == ps[..i] + ps[i..j];
    assert hs[..j] == hs[..i] + hs[i..j];
    ModAdd(Dot(ps[..i], hs[..i]), MapSim(q, ps[i..j], hs[i..j]), q);
    ModAdd(Dot(ps[i..j], hs[i..j]), Dot(ps[..i], hs[..i]), q);
  }

  /** The pairings are multiplied up 250 at a time; the verdict is that of the whole product. */
  method NativeVerify(q: nat, pubkeys: seq<nat>, mappedHashes: seq<nat>) returns (ok: bool)
    requires q >= 1 && |pubkeys| == |mappedHashes|
    ensures ok <==> Mod(Dot(pubkeys, mappedHashes), q) == 0
  {
    assert Dot(pubkeys[..0], mappedHashes[..0]) == 0;
    hide Mod, Dot;
    var length, candidate, i := |pubkeys|, 0, 0;
    while i < length
      invariant 0 <= i
      invariant candidate == Mod(Dot(pubkeys[..Done(i, length)], mappedHashes[..Done(i, length)]), q)
    {
      var numPairings := if length - i < 250 then length - i else 250;
      var ps, hs := pubkeys[i..i + numPairings], mappedHashes[i..i + numPairings];
      var tmp := MapSim(q, ps, hs);
      NextChunk(q, pubkeys, mappedHashes, i, i + numPairings);
      candidate := Mod(candidate + tmp, q);
      i := i + 250;
    }
    assert pubkeys[..length] == pubkeys && mappedHashes[..length] == mappedHashes;
    ok := candidate == 0;
  }

  /** e(-g1, sig) * e(pk, h) = 1 exactly when the signature is the one of the key. */
  method Verify(q: nat, pk: nat, h: nat, sig: nat) returns (ok: bool)
    requires q >= 1 && sig < q
    ensures ok <==> Mod(pk * h, q) == sig
  {
    ok := NativeVerify(q, [q - 1, pk], [sig, h]);
    assert [q - 1, pk][..1] == [q - 1] && [sig, h][..1] == [sig];
    assert [q - 1][..0] == [] && [sig][..0] == [];
    assert Dot([q - 1], [sig]) == (q - 1) * sig;
    var d := (q - 1) * sig + pk * h;
    assert Dot([q - 1, pk], [sig, h]) == d;
    assert d + sig == sig * q + pk * h;
    ModMultiple(pk * h, sig, q);
    ModDifference(sig, d, q);
  }

  /** Section 3.3.4: one check of the aggregate against the sum of the keys; never without keys. */
  method FastAggregateVerify(q: nat, pubkeys: seq<nat>, h: nat, signature: nat) returns (ok: bool)
    requires q >= 1 && signature < q && Elements(q, pubkeys)
    ensures ok <==> FastVerifies(q, pubkeys, h, signature)
  {
    if |pubkeys| <= 0 {
      return false;
    }
    var pkagg := Aggregate(q, pubkeys);
    ModMul(Sum(pubkeys), h, q);
    ok := Verify(q, pkagg, h, signature);
  }

  predicate FastVerifies(q: nat, pubkeys: seq<nat>, h: nat, signature: nat)
    requires q >= 1
  {
    pubkeys != [] && Mod(Sum(pubkeys) * h, q) == signature
  }
}
