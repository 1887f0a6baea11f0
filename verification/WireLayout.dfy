/** Where each field lies in the bytes of a message, told by offsets alone. */
module WireLayout {
  import opened Bytes
  import opened Wire
  import Certs
  import SecpCerts
  import Blocks

  /** The bytes part start at offset at. */
  predicate At(s: seq<byte>, at: nat, part: seq<byte>) {
    at + |part| <= |s| && s[at..at + |part|] == part
  }

  /** The k bytes at offset at are n, the lowest first. */
  predicate NumberAt(s: seq<byte>, at: nat, n: nat, k: nat) {
    at + k <= |s| && forall i | 0 <= i < k :: s[at + i] == n / Power(i) % 256
  }

  /** From offset at on, bit i is bit i % 8 of byte i / 8, the lowest bit being bit 0. */
  predicate BitsAt(s: seq<byte>, at: nat, bits: seq<bool>) {
    at + (|bits| + 7) / 8 <= |s| && forall i | 0 <= i < |bits| :: BitAt(s, at, i) == bits[i]
  }

  predicate BitAt(s: seq<byte>, at: nat, i: nat)
    requires at + i / 8 < |s|
  {
    s[at + i / 8] / Pow2(i % 8) % 2 == 1
  }

  /** Hashes of 32 bytes each, one after another. */
  predicate HashesAt(s: seq<byte>, at: nat, hs: seq<Hash>) {
    forall i | 0 <= i < |hs| :: At(s, at + 32 * i, hs[i])
  }

  // ---------- parts of longer streams ----------

  lemma Within(a: seq<byte>, s: seq<byte>, b: seq<byte>, at: nat, part: seq<byte>)
    requires At(s, at, part)
    ensures At(a + s + b, |a| + at, part)
  {
    assert (a + s + b)[|a| + at..|a| + at + |part|] == s[at..at + |part|];
  }

  /** A part of a part. */
  lemma Inside(s: seq<byte>, at: nat, part: seq<byte>, sub: nat, p: seq<byte>)
    requires At(s, at, part) && At(part, sub, p)
    ensures At(s, at + sub, p)
  {
    forall i | 0 <= i < |p| ensures s[at + sub + i] == p[i] {
      assert s[at..at + |part|][sub + i] == part[sub..sub + |p|][i];
    }
  }

  lemma NumberInside(s: seq<byte>, at: nat, part: seq<byte>, n: nat)
    requires At(s, at, part) && NumberAt(part, 0, n, |part|)
    ensures NumberAt(s, at, n, |part|)
  {
    forall i | 0 <= i < |part| ensures s[at + i] == n / Power(i) % 256 {
      assert s[at..at + |part|][i] == part[0 + i];
    }
  }

  lemma BitsInside(s: seq<byte>, at: nat, part: seq<byte>, bits: seq<bool>)
    requires At(s, at, part) && BitsAt(part, 0, bits)
    ensures BitsAt(s, at, bits)
  {
    forall i | 0 <= i < |bits| ensures BitAt(s, at, i) == bits[i] {
      assert s[at..at + |part|][i / 8] == part[0 + i / 8];
      assert BitAt(part, 0, i) == bits[i];
    }
  }

  lemma Pair(a: seq<byte>, b: seq<byte>)
    ensures At(a + b, 0, a) && At(a + b, |a|, b)
  {
  }

  lemma Triple(a: seq<byte>, b: seq<byte>, c: seq<byte>)
    ensures var s := a + (b + c); At(s, 0, a) && At(s, |a|, b) && At(s, |a| + |b|, c) && |s| == |a| + |b| + |c|
  {
    Pair(a, b + c);
    Pair(b, c);
    Inside(a + (b + c), |a|, b + c, 0, b);
    Inside(a + (b + c), |a|, b + c, |b|, c);
  }

  // ---------- numbers and bits ----------

  lemma MulMono(a: nat, b: nat, c: nat)
    requires a <= b
    ensures a * c <= b * c
  {
  }

  lemma DivBounds(a: nat, d: nat)
    requires d >= 1
    ensures a / d * d <= a < (a / d + 1) * d
  {
  }

  lemma Quotient(a: nat, d: nat, q: nat)
    requires d >= 1 && q * d <= a < (q + 1) * d
    ensures a / d == q
  {
    DivBounds(a, d);
    if a / d < q {
      MulMono(a / d + 1, q, d);
    } else if a / d > q {
      MulMono(q + 1, a / d, d);
    }
  }

  lemma Associative(a: nat, b: nat, c: nat)
    ensures a * b * c == a * (c * b)
  {
  }

  /** Dividing twice is dividing by the product d. */
  lemma DivTwice(n: nat, c: nat, p: nat, d: nat)
    requires p >= 1 && c >= 1 && d >= 1 && d == c * p
    ensures n / c / p == n / d
  {
    var m := n / c;
    var q := m / p;
    DivBounds(n, c);
    DivBounds(m, p);
    QuotientOf(n, m, q, c, p, d);
  }

  lemma QuotientOf(n: nat, m: nat, q: nat, c: nat, p: nat, d: nat)
    requires d >= 1 && d == c * p
    requires m * c <= n < (m + 1) * c && q * p <= m < (q + 1) * p
    ensures n / d == q
  {
    AtLeast(n, m, q, c, p);
    LessThan(n, m, q + 1, c, p);
    Quotient(n, d, q);
  }

  lemma AtLeast(n: nat, m: nat, q: nat, c: nat, p: nat)
    requires m * c <= n && q * p <= m
    ensures q * (c * p) <= n
  {
    MulMono(q * p, m, c);
    Associative(q, p, c);
  }

  lemma LessThan(n: nat, m: nat, q: nat, c: nat, p: nat)
    requires n < (m + 1) * c && m < q * p
    ensures n < q * (c * p)
  {
    MulMono(m + 1, q * p, c);
    Associative(q, p, c);
  }

  lemma {:induction false} DigitAt(n: nat, k: nat, i: nat)
    requires i < k
    ensures LittleEndian(n, k)[i] == n / Power(i) % 256
  {
    if i > 0 {
      DigitAt(n / 256, k - 1, i - 1);
      DivTwice(n, 256, Power(i - 1), Power(i));
    }
  }

  lemma NumberStarts(n: nat, k: nat)
    ensures NumberAt(LittleEndian(n, k), 0, n, k)
  {
    forall i | 0 <= i < k ensures LittleEndian(n, k)[0 + i] == n / Power(i) % 256 {
      DigitAt(n, k, i);
    }
  }

  lemma {:induction false} BitOfByte(bits: seq<bool>, i: nat)
    requires i < |bits| <= 8
    ensures ByteOf(bits) / Pow2(i) % 2 == 1 <==> bits[i]
  {
    if i > 0 {
      BitOfByte(bits[1..], i - 1);
      DivTwice(ByteOf(bits), 2, Pow2(i - 1), Pow2(i));
    }
  }

  lemma {:induction false} BitsStart(bits: seq<bool>)
    ensures BitsAt(Packed(bits), 0, bits)
  {
    var s := Packed(bits);
    if |bits| > 8 {
      BitsStart(bits[8..]);
    }
    forall i | 0 <= i < |bits| ensures BitAt(s, 0, i) == bits[i] {
      if |bits| <= 8 {
        BitOfByte(bits, i);
      } else if i < 8 {
        BitOfByte(bits[..8], i);
      } else {
        assert (i - 8) / 8 == i / 8 - 1 && (i - 8) % 8 == i % 8;
        assert BitAt(Packed(bits[8..]), 0, i - 8) == bits[8..][i - 8];
        assert s[i / 8] == Packed(bits[8..])[i / 8 - 1];
      }
    }
  }

  lemma {:induction false} HashesStart(hs: seq<Hash>)
    ensures |PutHashes(hs)| == 32 * |hs| && HashesAt(PutHashes(hs), 0, hs)
  {
    if hs != [] {
      hide At;
      var k := |hs| - 1;
      var init := PutHashes(hs[..k]);
      HashesStart(hs[..k]);
      Pair(init, hs[k]);
      forall i | 0 <= i < |hs| ensures At(PutHashes(hs), 0 + 32 * i, hs[i]) {
        if i < k {
          assert At(init, 0 + 32 * i, hs[..k][i]);
          Inside(init + hs[k], 0, init, 32 * i, hs[i]);
        }
      }
    }
  }

  /** A list: how many, as 32 bits, then the hashes. */
  predicate ListAt(s: seq<byte>, at: nat, hs: seq<Hash>) {
    NumberAt(s, at, |hs| % U32, 4) && HashesAt(s, at + 4, hs)
  }

  lemma ListInside(s: seq<byte>, at: nat, hs: seq<Hash>)
    requires At(s, at, PutList(hs))
    ensures ListAt(s, at, hs) && |PutList(hs)| == 4 + 32 * |hs|
  {
    hide At, NumberAt, PutU32, PutHashes;
    var n, list := PutU32(|hs|), PutHashes(hs);
    HashesStart(hs);
    U32Starts(|hs|);
    Pair(n, list);
    Inside(s, at, n + list, 0, n);
    Inside(s, at, n + list, 4, list);
    NumberInside(s, at, n, |hs| % U32);
    forall i | 0 <= i < |hs| ensures At(s, at + 4 + 32 * i, hs[i]) {
      assert At(list, 0 + 32 * i, hs[i]);
      Inside(s, at + 4, list, 32 * i, hs[i]);
    }
  }

  // ---------- certificates ----------

  /** Where the signatures start: after the hash, the number of bits and the bits. */
  function SigsFrom(rids: seq<bool>): nat {
    36 + (|rids| + 7) / 8
  }

  /** The hash and the bitmap that both kinds of certificate start with. */
  predicate HeadAt(s: seq<byte>, h: Hash, rids: seq<bool>) {
    At(s, 0, h) && NumberAt(s, 32, |rids| % U32, 4) && BitsAt(s, 36, rids)
  }

  lemma HeadOf(h: Hash, rids: seq<bool>, rest: seq<byte>)
    ensures var s := h + (PutBits(rids) + rest);
      HeadAt(s, h, rids) && At(s, SigsFrom(rids), rest) && |s| == SigsFrom(rids) + |rest|
  {
    var n, bits := PutU32(|rids|), Packed(rids);
    var s := h + (PutBits(rids) + rest);
    Triple(h, PutBits(rids), rest);
    Pair(n, bits);
    NumberStarts(|rids| % U32, 4);
    BitsStart(rids);
    Inside(s, 32, PutBits(rids), 0, n);
    Inside(s, 32, PutBits(rids), 4, bits);
    NumberInside(s, 32, n, |rids| % U32);
    BitsInside(s, 36, bits, rids);
  }

  predicate SigsAt(s: seq<byte>, rids: seq<bool>, sigs: map<nat, EcSig>)
    requires AllStored(rids, sigs)
  {
    && |s| == 64 * |Certs.Signers(rids)|
    && forall i | 0 <= i < |rids| && rids[i] :: At(s, 64 * |Certs.Signers(rids[..i])|, sigs[i])
  }

  /** A signer's signature comes after those of the signers before it. */
  lemma {:induction false} SigsStart(rids: seq<bool>, sigs: map<nat, EcSig>)
    requires AllStored(rids, sigs)
    ensures SigsAt(PutSigs(rids, sigs), rids, sigs)
  {
    if rids == [] {
      assert Certs.Signers(rids) == {};
    } else {
      var k := |rids| - 1;
      SigsStart(rids[..k], sigs);
      OneMoreSig(PutSigs(rids[..k], sigs), rids, sigs);
    }
  }

  lemma OneMoreSig(s: seq<byte>, rids: seq<bool>, sigs: map<nat, EcSig>)
    requires rids != [] && AllStored(rids, sigs) && SigsAt(s, rids[..|rids| - 1], sigs)
    ensures SigsAt(s + if rids[|rids| - 1] then sigs[|rids| - 1] else [], rids, sigs)
  {
    hide At, Certs.Signers;
    var k := |rids| - 1;
    assert rids[..k + 1] == rids;
    Certs.OneMoreBit(rids, k);
    var tail := if rids[k] then sigs[k] else [];
    Pair(s, tail);
    forall i | 0 <= i < |rids| && rids[i] ensures At(s + tail, 64 * |Certs.Signers(rids[..i])|, sigs[i]) {
      if i < k {
        assert rids[..k][..i] == rids[..i] && rids[..k][i];
        Inside(s + tail, 0, s, 64 * |Certs.Signers(rids[..i])|, sigs[i]);
      }
    }
  }

  /** A certificate: the hash, the bitmap, and then, in the one build, the signatures of the signers in order, each 64
    * bytes, and in the other a byte that says whether the 96 bytes of the aggregate follow. */
  lemma CertLayout(c: QuorumCert)
    requires Sendable(c)
    ensures var s := PutCert(c);
      match c
      case SecpQc(ec) =>
        && HeadAt(s, ec.objHash, ec.rids)
        && |s| == SigsFrom(ec.rids) + 64 * |Certs.Signers(ec.rids)|
        && forall i | 0 <= i < |ec.rids| && ec.rids[i] ::
             At(s, SigsFrom(ec.rids) + 64 * |Certs.Signers(ec.rids[..i])|, ec.sigs[i])
      case BlsQc(agg) =>
        && HeadAt(s, agg.objHash, agg.rids)
        && |s| == SigsFrom(agg.rids) + 1 + (if agg.sig.Some? then 96 else 0)
        && s[SigsFrom(agg.rids)] == (if agg.sig.Some? then 1 else 0)
        && (agg.sig.Some? ==> At(s, SigsFrom(agg.rids) + 1, agg.sig.value))
  {
    match c {
      case SecpQc(ec) =>
        SecpLayout(ec);
      case BlsQc(agg) =>
        hide HeadAt;
        var tail := if agg.sig.Some? then [1] + agg.sig.value else [0];
        HeadOf(agg.objHash, agg.rids, tail);
        assert PutCert(c)[SigsFrom(agg.rids)..SigsFrom(agg.rids) + |tail|] == tail;
        if agg.sig.Some? {
          Pair([1], agg.sig.value);
          Inside(PutCert(c), SigsFrom(agg.rids), tail, 1, agg.sig.value);
        }
    }
  }

  lemma SecpLayout(ec: Ec)
    requires AllStored(ec.rids, ec.sigs)
    ensures HeadAt(PutSecp(ec), ec.objHash, ec.rids)
    ensures |PutSecp(ec)| == SigsFrom(ec.rids) + 64 * |Certs.Signers(ec.rids)|
    ensures forall i | 0 <= i < |ec.rids| && ec.rids[i] ::
      At(PutSecp(ec), SigsFrom(ec.rids) + 64 * |Certs.Signers(ec.rids[..i])|, ec.sigs[i])
  {
    hide HeadAt, PutSigs, PutBits, Certs.Signers;
    var sigs := PutSigs(ec.rids, ec.sigs);
    HeadOf(ec.objHash, ec.rids, sigs);
    SigsStart(ec.rids, ec.sigs);
    forall i | 0 <= i < |ec.rids| && ec.rids[i]
      ensures At(PutSecp(ec), SigsFrom(ec.rids) + 64 * |Certs.Signers(ec.rids[..i])|, ec.sigs[i])
    {
      Inside(PutSecp(ec), SigsFrom(ec.rids), sigs, 64 * |Certs.Signers(ec.rids[..i])|, ec.sigs[i]);
    }
  }

  /** A signature of one replica: the hash, then the 64 or 96 bytes of the signature. */
  lemma PartLayout(c: PartCert)
    ensures At(PutPart(c), 0, c.objHash)
    ensures match c
      case SecpPart(_, d) => At(PutPart(c), 32, d) && |PutPart(c)| == 96
      case BlsPart(_, d) => At(PutPart(c), 32, d) && |PutPart(c)| == 128
  {
    match c {
      case SecpPart(h, d) => Pair(h, d);
      case BlsPart(h, d) => Pair(h, d);
    }
  }

  // ---------- blocks and messages ----------

  /** A block: the parents, the commands, the certificate, and the extra bytes after their number. */
  lemma BlockLayout(b: WireBlock)
    requires Sendable(b.qc)
    ensures var s, qc := PutBlock(b), PutCert(b.qc);
      var cmdsAt := 4 + 32 * |b.parentHashes|;
      var qcAt := cmdsAt + 4 + 32 * |b.cmds|;
      && ListAt(s, 0, b.parentHashes) && ListAt(s, cmdsAt, b.cmds)
      && At(s, qcAt, qc) && NumberAt(s, qcAt + |qc|, |b.extra| % U32, 4) && At(s, qcAt + |qc| + 4, b.extra)
      && |s| == qcAt + |qc| + 4 + |b.extra|
  {
    hide ListAt, PutList, PutCert, PutU32, NumberAt, At;
    var s, ps, cs, qc, n := PutBlock(b), PutList(b.parentHashes), PutList(b.cmds), PutCert(b.qc), PutU32(|b.extra|);
    var tail := qc + (n + b.extra);
    Triple(ps, cs, tail);
    Triple(qc, n, b.extra);
    ListInside(s, 0, b.parentHashes);
    ListInside(s, |ps|, b.cmds);
    var at := |ps| + |cs|;
    Inside(s, at, tail, 0, qc);
    Inside(s, at, tail, |qc|, n);
    Inside(s, at, tail, |qc| + 4, b.extra);
    U32Starts(|b.extra|);
    NumberInside(s, at + |qc|, n, |b.extra| % U32);
  }

  lemma U32Starts(n: nat)
    ensures NumberAt(PutU32(n), 0, n % U32, 4)
  {
    NumberStarts(n % U32, 4);
  }

  /** A vote: the voter in 16 bits, the block's hash, the signature. */
  lemma VoteLayout(v: Vote)
    ensures var s := PutVote(v);
      && NumberAt(s, 0, v.voter, 2) && At(s, 2, v.blkHash) && At(s, 34, PutPart(v.cert))
      && |s| == 34 + |PutPart(v.cert)|
  {
    var n := LittleEndian(v.voter, 2);
    NumberStarts(v.voter, 2);
    Triple(n, v.blkHash, PutPart(v.cert));
    NumberInside(PutVote(v), 0, n, v.voter);
  }

  /** A relay: the block's hash, the certificate. */
  lemma RelayLayout(v: VoteRelay)
    requires Sendable(v.cert)
    ensures var s := PutRelay(v);
      At(s, 0, v.blkHash) && At(s, 32, PutCert(v.cert)) && |s| == 32 + |PutCert(v.cert)|
  {
    hide PutCert;
    Pair(v.blkHash, PutCert(v.cert));
  }

  /** A proposal: the proposer in 16 bits, the block. */
  lemma ProposalLayout(p: Proposal)
    requires Sendable(p.blk.qc)
    ensures var s := PutProposal(p);
      NumberAt(s, 0, p.proposer, 2) && At(s, 2, PutBlock(p.blk)) && |s| == 2 + |PutBlock(p.blk)|
  {
    hide PutBlock;
    var n := LittleEndian(p.proposer, 2);
    NumberStarts(p.proposer, 2);
    Pair(n, PutBlock(p.blk));
    NumberInside(PutProposal(p), 0, n, p.proposer);
  }

  /** A finality: the replica in 16 bits, the decision in 8, two's complement, the command's index and its block's
    * height in 32 each, the command's hash and, only if the decision is 1, the block's. */
  lemma FinalityLayout(f: Finality)
    requires f.Typed()
    ensures var s := PutFinality(f);
      && NumberAt(s, 0, f.rid, 2) && |s| == 43 + (if f.decision == 1 then 32 else 0)
      && s[2] == (if f.decision < 0 then f.decision + 256 else f.decision)
      && NumberAt(s, 3, f.cmdIdx, 4) && NumberAt(s, 7, f.cmdHeight, 4) && At(s, 11, f.cmdHash)
      && (f.decision == 1 ==> At(s, 43, f.blkHash))
  {
    FinalityParts(f);
    hide *;
    var s := PutFinality(f);
    ReplicaInside(s, f.rid);
    SmallInside(s, 3, f.cmdIdx);
    SmallInside(s, 7, f.cmdHeight);
  }

  lemma ReplicaInside(s: seq<byte>, r: ReplicaID)
    requires At(s, 0, LittleEndian(r, 2))
    ensures NumberAt(s, 0, r, 2)
  {
    hide At, NumberAt, LittleEndian;
    NumberStarts(r, 2);
    NumberInside(s, 0, LittleEndian(r, 2), r);
  }

  lemma SmallInside(s: seq<byte>, at: nat, n: nat)
    requires n < U32 && At(s, at, PutU32(n))
    ensures NumberAt(s, at, n, 4)
  {
    hide At, NumberAt, PutU32;
    U32Starts(n);
    NumberInside(s, at, PutU32(n), n);
  }

  lemma FinalityParts(f: Finality)
    requires f.Typed()
    ensures var s := PutFinality(f);
      && At(s, 0, LittleEndian(f.rid, 2)) && |s| == 43 + (if f.decision == 1 then 32 else 0)
      && s[2] == (if f.decision < 0 then f.decision + 256 else f.decision)
      && At(s, 3, PutU32(f.cmdIdx)) && At(s, 7, PutU32(f.cmdHeight)) && At(s, 11, f.cmdHash)
      && (f.decision == 1 ==> At(s, 43, f.blkHash))
  {
    hide NumberAt, At, PutU32, LittleEndian;
    var s, rid, d := PutFinality(f), LittleEndian(f.rid, 2), ByteOfInt8(f.decision);
    var idx, height, blk := PutU32(f.cmdIdx), PutU32(f.cmdHeight), if f.decision == 1 then f.blkHash else [];
    var tail := f.cmdHash + blk;
    var mid := idx + (height + tail);
    Triple(rid, [d], mid);
    Triple(idx, height, tail);
    Pair(f.cmdHash, blk);
    Inside(s, 3, mid, 0, idx);
    Inside(s, 3, mid, 4, height);
    Inside(s, 3, mid, 8, tail);
    Inside(s, 11, tail, 0, f.cmdHash);
    Inside(s, 11, tail, 32, blk);
  }
}
