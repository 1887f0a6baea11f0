/** The encodings of blocks, certificates and messages. */
module Wire {
  import opened Bytes
  import Blocks
  import Certs
  import SecpCerts

  type Option<T> = Blocks.Option<T>

  /** A compact secp256k1 signature. */
  type EcSig = s: seq<byte> | |s| == 64 witness seq(64, i => 0)

  /** A compressed G2 point. */
  type BlsSig = s: seq<byte> | |s| == 96 witness seq(96, i => 0)

  type Ec = SecpCerts.Ec<EcSig>
  type Agg = Certs.Encoded<BlsSig>

  /** Which certificates the build uses; both ends of a connection agree on it. */
  datatype Kind = UsesSecp | UsesBls

  datatype QuorumCert = SecpQc(ec: Ec) | BlsQc(agg: Agg)

  datatype PartCert = SecpPart(objHash: Hash, ecSig: EcSig) | BlsPart(objHash: Hash, blsSig: BlsSig)

  function KindOf(c: QuorumCert): Kind {
    if c.SecpQc? then UsesSecp else UsesBls
  }

  function PartKind(c: PartCert): Kind {
    if c.SecpPart? then UsesSecp else UsesBls
  }

  // ---------- signatures ----------

  function GetEcSig(s: seq<byte>): Read<EcSig> {
    if |s| < 64 then Short
    else
      var d: EcSig := s[..64];
      Got(d, s[64..])
  }

  function GetBlsSig(s: seq<byte>): Read<BlsSig> {
    if |s| < 96 then Short
    else
      var d: BlsSig := s[..96];
      Got(d, s[96..])
  }

  lemma EcSigRead(d: EcSig, rest: seq<byte>)
    ensures GetEcSig(d + rest) == Got(d, rest)
  {
  }

  lemma BlsSigRead(d: BlsSig, rest: seq<byte>)
    ensures GetBlsSig(d + rest) == Got(d, rest)
  {
  }

  // ---------- the map of signatures, driven by the bitmap ----------

  /** Every signer in the bitmap has a signature stored; looking up another throws. */
  predicate AllStored(rids: seq<bool>, sigs: map<nat, EcSig>) {
    forall i | 0 <= i < |rids| && rids[i] :: i in sigs
  }

  function PutSigs(rids: seq<bool>, sigs: map<nat, EcSig>): seq<byte>
    requires AllStored(rids, sigs)
  {
    if rids == [] then []
    else
      var k := |rids| - 1;
      PutSigs(rids[..k], sigs) + if rids[k] then sigs[k] else []
  }

  function GetSigs(s: seq<byte>, rids: seq<bool>): (r: Read<map<nat, EcSig>>)
    ensures r.Got? ==> r.value.Keys == Certs.Signers(rids)
  {
    if rids == [] then Got(map[], s)
    else
      var k := |rids| - 1;
      assert Certs.Signers(rids) == Certs.Signers(rids[..k]) + if rids[k] then {k} else {};
      match GetSigs(s, rids[..k])
      case Short => Short
      case Got(m, s1) =>
        if !rids[k] then Got(m, s1)
        else
          match GetEcSig(s1)
          case Short => Short
          case Got(d, rest) => Got(m[k := d], rest)
  }

  /** The signatures of the signers in the bitmap. */
  function Restricted(rids: seq<bool>, sigs: map<nat, EcSig>): map<nat, EcSig>
    requires AllStored(rids, sigs)
  {
    map i | i in Certs.Signers(rids) :: sigs[i]
  }

  lemma {:induction false} SigsRead(rids: seq<bool>, sigs: map<nat, EcSig>, rest: seq<byte>)
    requires AllStored(rids, sigs)
    ensures GetSigs(PutSigs(rids, sigs) + rest, rids) == Got(Restricted(rids, sigs), rest)
  {
    if rids != [] {
      var k := |rids| - 1;
      var m := Restricted(rids[..k], sigs);
      assert Certs.Signers(rids) == Certs.Signers(rids[..k]) + if rids[k] then {k} else {};
      if rids[k] {
        SigsRead(rids[..k], sigs, sigs[k] + rest);
        assert PutSigs(rids, sigs) + rest == PutSigs(rids[..k], sigs) + (sigs[k] + rest);
        EcSigRead(sigs[k], rest);
        assert Restricted(rids, sigs) == m[k := sigs[k]];
      } else {
        SigsRead(rids[..k], sigs, rest);
        assert PutSigs(rids, sigs) == PutSigs(rids[..k], sigs);
        assert Restricted(rids, sigs) == m;
      }
    }
  }

  // ---------- certificates ----------

  /** Serializing does not throw. */
  predicate Sendable(c: QuorumCert) {
    match c
    case SecpQc(ec) => AllStored(ec.rids, ec.sigs)
    case BlsQc(agg) => agg.Encoded?
  }

  function PutSecp(c: Ec): seq<byte>
    requires AllStored(c.rids, c.sigs)
  {
    c.objHash + (PutBits(c.rids) + PutSigs(c.rids, c.sigs))
  }

  function GetSecp(s: seq<byte>): Read<Ec> {
    match GetHash(s)
    case Short => Short
    case Got(h, s1) =>
      match GetBits(s1)
      case Short => Short
      case Got(rids, s2) =>
        match GetSigs(s2, rids)
        case Short => Short
        case Got(sigs, rest) => Got(SecpCerts.Ec(h, rids, sigs), rest)
  }

  lemma SecpReadSmall(c: Ec, rest: seq<byte>)
    requires AllStored(c.rids, c.sigs) && |c.rids| < U32
    ensures GetSecp(PutSecp(c) + rest) == Got(c.(sigs := Restricted(c.rids, c.sigs)), rest)
  {
    hide PutBits, GetBits, PutSigs, GetSigs, Restricted, GetHash, AllStored;
    var sigs := PutSigs(c.rids, c.sigs);
    assert PutSecp(c) + rest == c.objHash + (PutBits(c.rids) + (sigs + rest));
    HashRead(c.objHash, PutBits(c.rids) + (sigs + rest));
    BitsRead(c.rids, sigs + rest);
    SigsRead(c.rids, c.sigs, rest);
  }

  function PutBls(c: Agg): seq<byte>
    requires c.Encoded?
  {
    c.objHash + (PutBits(c.rids) + if c.sig.Some? then [1] + c.sig.value else [0])
  }

  function GetBls(s: seq<byte>): Read<Agg> {
    match GetHash(s)
    case Short => Short
    case Got(h, s1) =>
      match GetBits(s1)
      case Short => Short
      case Got(rids, s2) =>
        match GetNumber(s2, 1)
        case Short => Short
        case Got(combined, s3) =>
          if combined == 0 then Got(Certs.Encoded(h, rids, Blocks.None), s3)
          else
            match GetBlsSig(s3)
            case Short => Short
            case Got(d, rest) => Got(Certs.Encoded(h, rids, Blocks.Some(d)), rest)
  }

  lemma FlagRead(flag: byte, rest: seq<byte>)
    ensures GetNumber([flag] + rest, 1) == Got(flag as nat, rest)
  {
    TakeAppend([flag], rest);
    assert Number([flag]) == flag + 256 * Number([]);
  }

  lemma BlsReadSmall(c: Agg, rest: seq<byte>)
    requires c.Encoded? && |c.rids| < U32
    ensures GetBls(PutBls(c) + rest) == Got(c, rest)
  {
    hide PutBits, GetBits, GetHash, GetNumber;
    var tail := if c.sig.Some? then [1] + (c.sig.value + rest) else [0] + rest;
    assert PutBls(c) + rest == c.objHash + (PutBits(c.rids) + tail);
    HashRead(c.objHash, PutBits(c.rids) + tail);
    BitsRead(c.rids, tail);
    if c.sig.Some? {
      FlagRead(1, c.sig.value + rest);
      BlsSigRead(c.sig.value, rest);
    } else {
      FlagRead(0, rest);
    }
  }

  function PutCert(c: QuorumCert): seq<byte>
    requires Sendable(c)
  {
    match c
    case SecpQc(ec) => PutSecp(ec)
    case BlsQc(agg) => PutBls(agg)
  }

  /** Only certificates that would come back are ever read. */
  function GetCert(kind: Kind, s: seq<byte>): (r: Read<QuorumCert>)
    ensures r.Got? ==> Faithful(r.value) && KindOf(r.value) == kind
  {
    match kind
    case UsesSecp =>
      ReadBits(s);
      (match GetSecp(s)
       case Short => Short
       case Got(ec, rest) => Got(SecpQc(ec), rest))
    case UsesBls =>
      ReadBits(s);
      match GetBls(s)
      case Short => Short
      case Got(agg, rest) => Got(BlsQc(agg), rest)
  }

  lemma ReadBits(s: seq<byte>)
    ensures GetSecp(s).Got? ==> |GetSecp(s).value.rids| < U32 && GetSecp(s).value.Matched()
    ensures GetBls(s).Got? ==> |GetBls(s).value.rids| < U32
  {
    if GetHash(s).Got? {
      BitsReadBound(GetHash(s).rest);
    }
  }

  /** What comes back as it was sent. */
  predicate Faithful(c: QuorumCert) {
    match c
    case SecpQc(ec) => ec.Matched() && |ec.rids| < U32
    case BlsQc(agg) => agg.Encoded? && |agg.rids| < U32
  }

  /** The round trip of certificates, exactly: a per-signer certificate is changed when it stores signatures
    * that its bitmap does not announce. */
  lemma CertRead(c: QuorumCert, rest: seq<byte>)
    requires Sendable(c)
    ensures GetCert(KindOf(c), PutCert(c) + rest) == Got(c, rest) <==> Faithful(c)
  {
    if Faithful(c) {
      match c {
        case SecpQc(ec) =>
          SecpReadSmall(ec, rest);
          assert Restricted(ec.rids, ec.sigs) == ec.sigs;
        case BlsQc(agg) =>
          BlsReadSmall(agg, rest);
      }
    }
  }

  function PutPart(c: PartCert): seq<byte> {
    match c
    case SecpPart(h, d) => h + d
    case BlsPart(h, d) => h + d
  }

  function GetPart(kind: Kind, s: seq<byte>): Read<PartCert> {
    match GetHash(s)
    case Short => Short
    case Got(h, s1) =>
      if kind == UsesSecp then
        match GetEcSig(s1)
        case Short => Short
        case Got(d, rest) => Got(SecpPart(h, d), rest)
      else
        match GetBlsSig(s1)
        case Short => Short
        case Got(d, rest) => Got(BlsPart(h, d), rest)
  }

  lemma PartRead(c: PartCert, rest: seq<byte>)
    ensures GetPart(PartKind(c), PutPart(c) + rest) == Got(c, rest)
  {
    hide GetHash, GetEcSig, GetBlsSig;
    match c {
      case SecpPart(h, d) =>
        assert PutPart(c) + rest == h + (d + rest);
        HashRead(h, d + rest);
        EcSigRead(d, rest);
      case BlsPart(h, d) =>
        assert PutPart(c) + rest == h + (d + rest);
        HashRead(h, d + rest);
        BlsSigRead(d, rest);
    }
  }

  // ---------- blocks ----------

  /** The fields of a block that are sent; all others are derived. */
  datatype WireBlock = WireBlock(parentHashes: seq<Hash>, cmds: seq<Hash>, qc: QuorumCert, extra: seq<byte>) {
    predicate Small() {
      |parentHashes| < U32 && |cmds| < U32 && |extra| < U32
    }
  }

  function PutList(hs: seq<Hash>): seq<byte> {
    PutU32(|hs|) + PutHashes(hs)
  }

  function GetList(s: seq<byte>): (r: Read<seq<Hash>>)
    ensures r.Got? ==> |r.value| < U32
  {
    Powers();
    NumberReadBound(s, 4);
    match GetNumber(s, 4)
    case Short => Short
    case Got(n, s1) => GetHashes(s1, n)
  }

  lemma ListRead(hs: seq<Hash>, rest: seq<byte>)
    requires |hs| < U32
    ensures GetList(PutList(hs) + rest) == Got(hs, rest)
  {
    hide PutU32, GetNumber, PutHashes, GetHashes;
    assert PutList(hs) + rest == PutU32(|hs|) + (PutHashes(hs) + rest);
    U32Read(|hs|, PutHashes(hs) + rest);
    HashesRead(hs, rest);
  }

  function PutExtra(d: seq<byte>): seq<byte> {
    PutU32(|d|) + d
  }

  function GetExtra(s: seq<byte>): (r: Read<seq<byte>>)
    ensures r.Got? ==> |r.value| < U32
  {
    Powers();
    NumberReadBound(s, 4);
    match GetNumber(s, 4)
    case Short => Short
    case Got(n, s1) => if n == 0 then Got([], s1) else Take(s1, n)
  }

  lemma ExtraRead(d: seq<byte>, rest: seq<byte>)
    requires |d| < U32
    ensures GetExtra(PutExtra(d) + rest) == Got(d, rest)
  {
    assert PutExtra(d) + rest == PutU32(|d|) + (d + rest);
    U32Read(|d|, d + rest);
    TakeAppend(d, rest);
    assert d == [] ==> d + rest == rest;
    hide PutU32, GetNumber;
  }

  function PutBlock(b: WireBlock): seq<byte>
    requires Sendable(b.qc)
  {
    PutList(b.parentHashes) + (PutList(b.cmds) + (PutCert(b.qc) + PutExtra(b.extra)))
  }

  function GetBlock(kind: Kind, s: seq<byte>): (r: Read<WireBlock>)
    ensures r.Got? ==> r.value.Small() && Faithful(r.value.qc)
  {
    match GetList(s)
    case Short => Short
    case Got(parents, s1) =>
      match GetList(s1)
      case Short => Short
      case Got(cmds, s2) =>
        match GetCert(kind, s2)
        case Short => Short
        case Got(qc, s3) =>
          match GetExtra(s3)
          case Short => Short
          case Got(extra, rest) => Got(WireBlock(parents, cmds, qc, extra), rest)
  }

  /** Reading a block up to its certificate. */
  lemma BlockReadTo(b: WireBlock, rest: seq<byte>)
    requires Sendable(b.qc) && b.Small()
    ensures var tail := PutExtra(b.extra) + rest;
      GetBlock(KindOf(b.qc), PutBlock(b) + rest) ==
        match GetCert(KindOf(b.qc), PutCert(b.qc) + tail)
        case Short => Short
        case Got(qc, s3) =>
          match GetExtra(s3)
          case Short => Short
          case Got(extra, rest) => Got(WireBlock(b.parentHashes, b.cmds, qc, extra), rest)
  {
    hide PutList, GetList, PutCert, GetCert, PutExtra, GetExtra, KindOf;
    var s3 := PutExtra(b.extra) + rest;
    var s2 := PutCert(b.qc) + s3;
    var s1 := PutList(b.cmds) + s2;
    assert PutBlock(b) + rest == PutList(b.parentHashes) + s1;
    ListRead(b.parentHashes, s1);
    ListRead(b.cmds, s2);
  }

  /** A block comes back as it was sent, whatever follows it, exactly when no list has 2^32 entries or
    * more and its certificate comes back. */
  lemma BlockRoundTrip(b: WireBlock, rest: seq<byte>)
    requires Sendable(b.qc)
    ensures GetBlock(KindOf(b.qc), PutBlock(b) + rest) == Got(b, rest) <==> b.Small() && Faithful(b.qc)
  {
    if b.Small() && Faithful(b.qc) {
      hide PutExtra, GetExtra, PutCert, GetCert, GetBlock, PutBlock;
      BlockReadTo(b, rest);
      CertRead(b.qc, PutExtra(b.extra) + rest);
      ExtraRead(b.extra, rest);
    }
  }

  /** Different blocks have different encodings, and none is a prefix of another's. */
  lemma BlockInjective(a: WireBlock, b: WireBlock, x: seq<byte>, y: seq<byte>)
    requires Sendable(a.qc) && a.Small() && Faithful(a.qc)
    requires Sendable(b.qc) && b.Small() && Faithful(b.qc)
    requires KindOf(a.qc) == KindOf(b.qc) && PutBlock(a) + x == PutBlock(b) + y
    ensures a == b && x == y
  {
    BlockRoundTrip(a, x);
    BlockRoundTrip(b, y);
  }

  // ---------- messages ----------

  type ReplicaID = r: nat | r < 0x1_0000

  datatype Vote = Vote(voter: ReplicaID, blkHash: Hash, cert: PartCert)

  datatype VoteRelay = VoteRelay(blkHash: Hash, cert: QuorumCert)

  datatype Proposal = Proposal(proposer: ReplicaID, blk: WireBlock)

  function PutVote(v: Vote): seq<byte> {
    LittleEndian(v.voter, 2) + (v.blkHash + PutPart(v.cert))
  }

  function GetReplica(s: seq<byte>): Read<ReplicaID> {
    Powers();
    NumberReadBound(s, 2);
    match GetNumber(s, 2)
    case Short => Short
    case Got(n, rest) =>
      var r: ReplicaID := n;
      Got(r, rest)
  }

  lemma ReplicaRead(r: ReplicaID, rest: seq<byte>)
    ensures GetReplica(LittleEndian(r, 2) + rest) == Got(r, rest)
  {
    Powers();
    NumberRead(r, 2, rest);
  }

  function GetVote(kind: Kind, s: seq<byte>): Read<Vote> {
    match GetReplica(s)
    case Short => Short
    case Got(voter, s1) =>
      match GetHash(s1)
      case Short => Short
      case Got(h, s2) =>
        match GetPart(kind, s2)
        case Short => Short
        case Got(cert, rest) => Got(Vote(voter, h, cert), rest)
  }

  lemma VoteRoundTrip(v: Vote, rest: seq<byte>)
    ensures GetVote(PartKind(v.cert), PutVote(v) + rest) == Got(v, rest)
  {
    hide GetReplica, GetHash, GetPart, PutPart, PartKind, LittleEndian;
    var s2 := PutPart(v.cert) + rest;
    assert PutVote(v) + rest == LittleEndian(v.voter, 2) + (v.blkHash + s2);
    ReplicaRead(v.voter, v.blkHash + s2);
    HashRead(v.blkHash, s2);
    PartRead(v.cert, rest);
  }

  function PutRelay(v: VoteRelay): seq<byte>
    requires Sendable(v.cert)
  {
    v.blkHash + PutCert(v.cert)
  }

  function GetRelay(kind: Kind, s: seq<byte>): Read<VoteRelay> {
    match GetHash(s)
    case Short => Short
    case Got(h, s1) =>
      match GetCert(kind, s1)
      case Short => Short
      case Got(cert, rest) => Got(VoteRelay(h, cert), rest)
  }

  lemma RelayRoundTrip(v: VoteRelay, rest: seq<byte>)
    requires Sendable(v.cert)
    ensures GetRelay(KindOf(v.cert), PutRelay(v) + rest) == Got(v, rest) <==> Faithful(v.cert)
  {
    hide GetHash, GetCert, PutCert, KindOf, Faithful, Sendable;
    var s1 := PutCert(v.cert) + rest;
    assert PutRelay(v) + rest == v.blkHash + s1;
    HashRead(v.blkHash, s1);
    CertRead(v.cert, rest);
  }

  function PutProposal(p: Proposal): seq<byte>
    requires Sendable(p.blk.qc)
  {
    LittleEndian(p.proposer, 2) + PutBlock(p.blk)
  }

  function GetProposal(kind: Kind, s: seq<byte>): Read<Proposal> {
    match GetReplica(s)
    case Short => Short
    case Got(proposer, s1) =>
      match GetBlock(kind, s1)
      case Short => Short
      case Got(blk, rest) => Got(Proposal(proposer, blk), rest)
  }

  lemma ProposalRoundTrip(p: Proposal, rest: seq<byte>)
    requires Sendable(p.blk.qc)
    ensures GetProposal(KindOf(p.blk.qc), PutProposal(p) + rest) == Got(p, rest) <==>
      p.blk.Small() && Faithful(p.blk.qc)
  {
    hide GetReplica, GetBlock, PutBlock, KindOf, LittleEndian, Faithful, Sendable;
    var s1 := PutBlock(p.blk) + rest;
    assert PutProposal(p) + rest == LittleEndian(p.proposer, 2) + s1;
    ReplicaRead(p.proposer, s1);
    BlockRoundTrip(p.blk, rest);
  }

  /** decision is an int8_t, sent as its byte. */
  datatype Finality = Finality(rid: ReplicaID, decision: int, cmdIdx: nat, cmdHeight: nat, cmdHash: Hash,
    blkHash: Hash) {
    predicate Typed() {
      -128 <= decision < 128 && cmdIdx < U32 && cmdHeight < U32
    }
  }

  function ByteOfInt8(d: int): byte
    requires -128 <= d < 128
  {
    if d >= 0 then d else d + 256
  }

  function Int8OfByte(b: nat): int {
    if b < 128 then b else b - 256
  }

  function PutFinality(f: Finality): seq<byte>
    requires f.Typed()
  {
    LittleEndian(f.rid, 2) + ([ByteOfInt8(f.decision)] + (PutU32(f.cmdIdx) + (PutU32(f.cmdHeight)
      + (f.cmdHash + if f.decision == 1 then f.blkHash else []))))
  }

  /** Reading into an object whose block hash was before: it stays unless the decision is 1. */
  function GetFinality(before: Hash, s: seq<byte>): Read<Finality> {
    match GetReplica(s)
    case Short => Short
    case Got(rid, s1) =>
      match GetNumber(s1, 1)
      case Short => Short
      case Got(d, s2) =>
        match GetNumber(s2, 4)
        case Short => Short
        case Got(idx, s3) =>
          match GetNumber(s3, 4)
          case Short => Short
          case Got(height, s4) =>
            match GetHash(s4)
            case Short => Short
            case Got(cmd, s5) =>
              if Int8OfByte(d) != 1 then Got(Finality(rid, Int8OfByte(d), idx, height, cmd, before), s5)
              else
                match GetHash(s5)
                case Short => Short
                case Got(blk, rest) => Got(Finality(rid, Int8OfByte(d), idx, height, cmd, blk), rest)
  }

  /** A decided finality comes back; any other exactly when the reader's block hash happened to be the same. */
  lemma FinalityRoundTrip(f: Finality, before: Hash, rest: seq<byte>)
    requires f.Typed()
    ensures GetFinality(before, PutFinality(f) + rest) == Got(f, rest) <==> f.decision == 1 || f.blkHash == before
  {
    hide GetReplica, GetHash, LittleEndian, PutU32, GetNumber;
    var d := ByteOfInt8(f.decision);
    var s5 := if f.decision == 1 then f.blkHash + rest else rest;
    var s4 := f.cmdHash + s5;
    var s3 := PutU32(f.cmdHeight) + s4;
    var s2 := PutU32(f.cmdIdx) + s3;
    var s1 := [d] + s2;
    assert PutFinality(f) + rest == LittleEndian(f.rid, 2) + s1;
    ReplicaRead(f.rid, s1);
    FlagRead(d, s2);
    U32Read(f.cmdIdx, s3);
    U32Read(f.cmdHeight, s4);
    HashRead(f.cmdHash, s5);
    if f.decision == 1 {
      HashRead(f.blkHash, rest);
    }
  }

  // ---------- the loops over a stream ----------

  class DataStream {
    var buf: seq<byte>

    constructor ()
      ensures buf == []
    {
      buf := [];
    }

    method PutData(d: seq<byte>)
      modifies this
      ensures buf == old(buf) + d
    {
      buf := buf + d;
    }

    /** Taking more than there is throws. */
    method GetData(k: nat) returns (thrown: bool, d: seq<byte>)
      modifies this
      ensures thrown <==> Take(old(buf), k) == Short
      ensures !thrown ==> Take(old(buf), k) == Got(d, buf)
    {
      if |buf| < k {
        return true, [];
      }
      thrown, d, buf := false, buf[..k], buf[k..];
    }

    method PutHashList(hs: seq<Hash>)
      modifies this
      ensures buf == old(buf) + PutList(hs)
    {
      PutData(PutU32(|hs|));
      ghost var before := buf;
      var i := 0;
      while i < |hs|
        invariant 0 <= i <= |hs|
        invariant buf == before + PutHashes(hs[..i])
      {
        assert hs[..i + 1][..i] == hs[..i];
        PutData(hs[i]);
        i := i + 1;
      }
      assert hs[..i] == hs;
    }

    method GetHashList() returns (thrown: bool, hs: seq<Hash>)
      modifies this
      ensures thrown <==> GetList(old(buf)) == Short
      ensures !thrown ==> GetList(old(buf)) == Got(hs, buf)
    {
      hs := [];
      var bytes;
      thrown, bytes := GetData(4);
      if thrown {
        return;
      }
      var n := Number(bytes);
      ghost var start := buf;
      var i := 0;
      while i < n
        invariant 0 <= i <= n
        invariant GetHashes(start, i) == Got(hs, buf)
      {
        var d;
        thrown, d := GetData(32);
        if thrown {
          ShortStays(start, i + 1, n);
          return;
        }
        var h: Hash := d;
        hs := hs + [h];
        i := i + 1;
      }
    }
  }

  /** A list too short for some entries is too short for more. */
  lemma {:induction false} ShortStays(s: seq<byte>, i: nat, n: nat)
    requires i <= n && GetHashes(s, i) == Short
    ensures GetHashes(s, n) == Short
    decreases n
  {
    if i < n {
      ShortStays(s, i, n - 1);
    }
  }

  lemma {:induction false} ShortSigs(s: seq<byte>, rids: seq<bool>, i: nat)
    requires i <= |rids| && GetSigs(s, rids[..i]) == Short
    ensures GetSigs(s, rids) == Short
    decreases |rids|
  {
    if i == |rids| {
      assert rids[..i] == rids;
    } else {
      var k := |rids| - 1;
      assert rids[..k][..i] == rids[..i];
      ShortSigs(s, rids[..k], i);
    }
  }

  lemma NextSig(rids: seq<bool>, sigs: map<nat, EcSig>, i: nat)
    requires i < |rids| && AllStored(rids[..i], sigs)
    ensures AllStored(rids[..i + 1], sigs) <==> rids[i] ==> i in sigs
    ensures AllStored(rids[..i + 1], sigs) ==>
      PutSigs(rids[..i + 1], sigs) == PutSigs(rids[..i], sigs) + if rids[i] then sigs[i] else []
    ensures AllStored(rids, sigs) ==> AllStored(rids[..i + 1], sigs)
  {
    assert rids[..i + 1][..i] == rids[..i];
    assert forall k | 0 <= k < i + 1 :: rids[..i + 1][k] == rids[k] && (k < i ==> rids[..i][k] == rids[k]);
  }

  /** The signatures of the signers; one without a stored signature throws. */
  method SerializeSigs(rids: seq<bool>, sigs: map<nat, EcSig>, s: DataStream) returns (thrown: bool)
    modifies s
    ensures thrown <==> !AllStored(rids, sigs)
    ensures !thrown ==> s.buf == old(s.buf) + PutSigs(rids, sigs)
  {
    var i := 0;
    assert old(s.buf) + [] == s.buf;
    while i < |rids|
      invariant 0 <= i <= |rids|
      invariant AllStored(rids[..i], sigs)
      invariant s.buf == old(s.buf) + PutSigs(rids[..i], sigs)
    {
      hide PutSigs, AllStored;
      NextSig(rids, sigs, i);
      if rids[i] {
        if i !in sigs {
          return true;
        }
        s.PutData(sigs[i]);
      }
      i := i + 1;
    }
    assert rids[..i] == rids;
    thrown := false;
  }

  method SerializeSecp(c: Ec, s: DataStream) returns (thrown: bool)
    modifies s
    ensures thrown <==> !AllStored(c.rids, c.sigs)
    ensures !thrown ==> s.buf == old(s.buf) + PutSecp(c)
  {
    hide PutBits, PutSigs;
    s.PutData(c.objHash);
    s.PutData(PutBits(c.rids));
    thrown := SerializeSigs(c.rids, c.sigs, s);
    if !thrown {
      CatThree(old(s.buf), c.objHash, PutBits(c.rids), PutSigs(c.rids, c.sigs));
    }
  }

  lemma CatThree(s: seq<byte>, a: seq<byte>, b: seq<byte>, c: seq<byte>)
    ensures s + a + b + c == s + (a + (b + c))
  {
  }

  method UnserializeSecp(s: DataStream) returns (thrown: bool, c: Ec)
    modifies s
    ensures thrown <==> GetSecp(old(s.buf)) == Short
    ensures !thrown ==> GetSecp(old(s.buf)) == Got(c, s.buf)
  {
    c := SecpCerts.Ec(seq(32, i => 0), [], map[]);
    var d;
    thrown, d := s.GetData(32);
    if thrown {
      return;
    }
    match GetBits(s.buf) {
      case Short =>
        return true, c;
      case Got(rids, rest) =>
        s.buf := rest;
        var sigs: map<nat, EcSig> := map[];
        var i := 0;
        while i < |rids|
          invariant 0 <= i <= |rids|
          invariant GetSigs(rest, rids[..i]) == Got(sigs, s.buf)
        {
          assert rids[..i + 1][..i] == rids[..i];
          if rids[i] {
            var e;
            thrown, e := s.GetData(64);
            if thrown {
              ShortSigs(rest, rids, i + 1);
              return;
            }
            var sig: EcSig := e;
            sigs := sigs[i := sig];
          }
          i := i + 1;
        }
        assert rids[..i] == rids;
        c := SecpCerts.Ec(d, rids, sigs);
        thrown := false;
    }
  }

  lemma CatTail(s: seq<byte>, a: seq<byte>, b: seq<byte>, c: seq<byte>, d: seq<byte>)
    ensures s + (a + (b + c)) + d == s + (a + (b + (c + d)))
  {
    assert a + (b + c) + d == a + (b + (c + d));
  }

  /** Block::serialize; the certificate throws if it cannot be sent. */
  method SerializeBlock(b: WireBlock, s: DataStream) returns (thrown: bool)
    modifies s
    ensures thrown <==> !Sendable(b.qc)
    ensures !thrown ==> s.buf == old(s.buf) + PutBlock(b)
  {
    hide PutList, PutSecp, PutBls, PutExtra, AllStored;
    s.PutHashList(b.parentHashes);
    s.PutHashList(b.cmds);
    match b.qc {
      case SecpQc(ec) =>
        thrown := SerializeSecp(ec, s);
        if thrown {
          return;
        }
      case BlsQc(agg) =>
        if agg.NotAggregated? {
          return true;
        }
        s.PutData(PutBls(agg));
    }
    s.PutData(PutExtra(b.extra));
    thrown := false;
    hide PutCert;
    CatThree(old(s.buf), PutList(b.parentHashes), PutList(b.cmds), PutCert(b.qc));
    CatTail(old(s.buf), PutList(b.parentHashes), PutList(b.cmds), PutCert(b.qc), PutExtra(b.extra));
  }

  /** Block::unserialize. */
  method UnserializeBlock(kind: Kind, s: DataStream) returns (thrown: bool, b: WireBlock)
    modifies s
    ensures thrown <==> GetBlock(kind, old(s.buf)) == Short
    ensures !thrown ==> GetBlock(kind, old(s.buf)) == Got(b, s.buf)
  {
    hide GetList, GetCert, GetExtra;
    b := WireBlock([], [], BlsQc(Certs.NotAggregated), []);
    var parents, cmds;
    thrown, parents := s.GetHashList();
    if thrown {
      return;
    }
    thrown, cmds := s.GetHashList();
    if thrown {
      return;
    }
    match GetCert(kind, s.buf) {
      case Short =>
        return true, b;
      case Got(qc, rest) =>
        s.buf := rest;
        match GetExtra(s.buf) {
          case Short =>
            return true, b;
          case Got(extra, end) =>
            s.buf := end;
            b := WireBlock(parents, cmds, qc, extra);
        }
    }
  }
}
