/** Readers never look past what they take, so a message cut short is refused. */
module WirePrefix {
  import opened Bytes
  import opened Wire

  /** Reading s + more is reading s, with more left over, unless s alone runs short. */
  ghost predicate Extends<T>(r: Read<T>, longer: Read<T>, more: seq<byte>) {
    r.Got? ==> longer == Got(r.value, r.rest + more)
  }

  // ---------- the readers ----------

  lemma Split(s: seq<byte>, k: nat, more: seq<byte>)
    requires k <= |s|
    ensures (s + more)[..k] == s[..k] && (s + more)[k..] == s[k..] + more
  {
  }

  lemma TakeExtends(s: seq<byte>, k: nat, more: seq<byte>)
    ensures Extends(Take(s, k), Take(s + more, k), more)
  {
    if k <= |s| {
      Split(s, k, more);
    }
  }

  lemma NumberExtends(s: seq<byte>, k: nat, more: seq<byte>)
    ensures Extends(GetNumber(s, k), GetNumber(s + more, k), more)
  {
    hide Number;
    TakeExtends(s, k, more);
  }

  lemma HashExtends(s: seq<byte>, more: seq<byte>)
    ensures Extends(GetHash(s), GetHash(s + more), more)
  {
    if |s| >= 32 {
      Split(s, 32, more);
    }
  }

  lemma BitsExtends(s: seq<byte>, more: seq<byte>)
    ensures Extends(GetBits(s), GetBits(s + more), more)
  {
    hide GetNumber, Take, Unpacked;
    NumberExtends(s, 4, more);
    if GetNumber(s, 4).Got? {
      var k := GetNumber(s, 4).value;
      TakeExtends(GetNumber(s, 4).rest, (k + 7) / 8, more);
    }
  }

  lemma {:induction false} HashesExtends(s: seq<byte>, k: nat, more: seq<byte>)
    ensures Extends(GetHashes(s, k), GetHashes(s + more, k), more)
  {
    if k > 0 {
      hide GetHash;
      HashesExtends(s, k - 1, more);
      if GetHashes(s, k - 1).Got? {
        HashExtends(GetHashes(s, k - 1).rest, more);
      }
    }
  }

  lemma ListExtends(s: seq<byte>, more: seq<byte>)
    ensures Extends(GetList(s), GetList(s + more), more)
  {
    hide GetNumber, GetHashes;
    NumberExtends(s, 4, more);
    if GetNumber(s, 4).Got? {
      HashesExtends(GetNumber(s, 4).rest, GetNumber(s, 4).value, more);
    }
  }

  lemma ExtraExtends(s: seq<byte>, more: seq<byte>)
    ensures Extends(GetExtra(s), GetExtra(s + more), more)
  {
    hide GetNumber, Take;
    NumberExtends(s, 4, more);
    if GetNumber(s, 4).Got? {
      TakeExtends(GetNumber(s, 4).rest, GetNumber(s, 4).value, more);
    }
  }

  lemma EcSigExtends(s: seq<byte>, more: seq<byte>)
    ensures Extends(GetEcSig(s), GetEcSig(s + more), more)
  {
    if |s| >= 64 {
      Split(s, 64, more);
    }
  }

  lemma BlsSigExtends(s: seq<byte>, more: seq<byte>)
    ensures Extends(GetBlsSig(s), GetBlsSig(s + more), more)
  {
    if |s| >= 96 {
      Split(s, 96, more);
    }
  }

  lemma {:induction false} SigsExtends(s: seq<byte>, rids: seq<bool>, more: seq<byte>)
    ensures Extends(GetSigs(s, rids), GetSigs(s + more, rids), more)
  {
    if rids != [] {
      hide GetEcSig;
      var k := |rids| - 1;
      SigsExtends(s, rids[..k], more);
      if GetSigs(s, rids[..k]).Got? {
        EcSigExtends(GetSigs(s, rids[..k]).rest, more);
      }
    }
  }

  lemma SecpExtends(s: seq<byte>, more: seq<byte>)
    ensures Extends(GetSecp(s), GetSecp(s + more), more)
  {
    hide GetHash, GetBits, GetSigs;
    HashExtends(s, more);
    if GetHash(s).Got? {
      var s1 := GetHash(s).rest;
      BitsExtends(s1, more);
      if GetBits(s1).Got? {
        SigsExtends(GetBits(s1).rest, GetBits(s1).value, more);
      }
    }
  }

  lemma BlsExtends(s: seq<byte>, more: seq<byte>)
    ensures Extends(GetBls(s), GetBls(s + more), more)
  {
    hide GetHash, GetBits, GetNumber, GetBlsSig;
    HashExtends(s, more);
    if GetHash(s).Got? {
      var s1 := GetHash(s).rest;
      BitsExtends(s1, more);
      if GetBits(s1).Got? {
        var s2 := GetBits(s1).rest;
        NumberExtends(s2, 1, more);
        if GetNumber(s2, 1).Got? {
          BlsSigExtends(GetNumber(s2, 1).rest, more);
        }
      }
    }
  }

  lemma CertExtends(kind: Kind, s: seq<byte>, more: seq<byte>)
    ensures Extends(GetCert(kind, s), GetCert(kind, s + more), more)
  {
    hide GetSecp, GetBls;
    SecpExtends(s, more);
    BlsExtends(s, more);
  }

  lemma PartExtends(kind: Kind, s: seq<byte>, more: seq<byte>)
    ensures Extends(GetPart(kind, s), GetPart(kind, s + more), more)
  {
    hide GetHash, GetEcSig, GetBlsSig;
    HashExtends(s, more);
    if GetHash(s).Got? {
      EcSigExtends(GetHash(s).rest, more);
      BlsSigExtends(GetHash(s).rest, more);
    }
  }

  lemma BlockExtends(kind: Kind, s: seq<byte>, more: seq<byte>)
    ensures Extends(GetBlock(kind, s), GetBlock(kind, s + more), more)
  {
    hide GetList, GetCert, GetExtra;
    ListExtends(s, more);
    if GetList(s).Got? {
      var s1 := GetList(s).rest;
      ListExtends(s1, more);
      if GetList(s1).Got? {
        var s2 := GetList(s1).rest;
        CertExtends(kind, s2, more);
        if GetCert(kind, s2).Got? {
          ExtraExtends(GetCert(kind, s2).rest, more);
        }
      }
    }
  }

  lemma ReplicaExtends(s: seq<byte>, more: seq<byte>)
    ensures Extends(GetReplica(s), GetReplica(s + more), more)
  {
    hide GetNumber;
    NumberExtends(s, 2, more);
  }

  lemma VoteExtends(kind: Kind, s: seq<byte>, more: seq<byte>)
    ensures Extends(GetVote(kind, s), GetVote(kind, s + more), more)
  {
    hide GetReplica, GetHash, GetPart;
    ReplicaExtends(s, more);
    if GetReplica(s).Got? {
      var s1 := GetReplica(s).rest;
      HashExtends(s1, more);
      if GetHash(s1).Got? {
        PartExtends(kind, GetHash(s1).rest, more);
      }
    }
  }

  lemma RelayExtends(kind: Kind, s: seq<byte>, more: seq<byte>)
    ensures Extends(GetRelay(kind, s), GetRelay(kind, s + more), more)
  {
    hide GetHash, GetCert;
    HashExtends(s, more);
    if GetHash(s).Got? {
      CertExtends(kind, GetHash(s).rest, more);
    }
  }

  lemma ProposalExtends(kind: Kind, s: seq<byte>, more: seq<byte>)
    ensures Extends(GetProposal(kind, s), GetProposal(kind, s + more), more)
  {
    hide GetReplica, GetBlock;
    ReplicaExtends(s, more);
    if GetReplica(s).Got? {
      BlockExtends(kind, GetReplica(s).rest, more);
    }
  }

  lemma FinalityExtends(before: Hash, s: seq<byte>, more: seq<byte>)
    ensures Extends(GetFinality(before, s), GetFinality(before, s + more), more)
  {
    hide GetReplica, GetHash, GetNumber;
    ReplicaExtends(s, more);
    if GetReplica(s).Got? {
      var s1 := GetReplica(s).rest;
      NumberExtends(s1, 1, more);
      if GetNumber(s1, 1).Got? {
        var s2 := GetNumber(s1, 1).rest;
        NumberExtends(s2, 4, more);
        if GetNumber(s2, 4).Got? {
          var s3 := GetNumber(s2, 4).rest;
          NumberExtends(s3, 4, more);
          if GetNumber(s3, 4).Got? {
            var s4 := GetNumber(s3, 4).rest;
            HashExtends(s4, more);
            if GetHash(s4).Got? {
              HashExtends(GetHash(s4).rest, more);
            }
          }
        }
      }
    }
  }

  // ---------- messages cut short ----------

  /** A reader that takes all of whole, and of its beginning the same, leaves nothing out. */
  lemma CutIsShort<T>(whole: seq<byte>, k: nat, r: Read<T>, longer: Read<T>, v: T)
    requires k < |whole| && Extends(r, longer, whole[k..]) && longer == Got(v, [])
    ensures r == Short
  {
    assert forall a: seq<byte> :: |a + whole[k..]| >= 1;
  }

  lemma Cut(whole: seq<byte>, k: nat)
    requires k < |whole|
    ensures whole[..k] + whole[k..] == whole && whole + [] == whole
  {
  }

  /** However much of its end a block is missing, reading it throws. */
  lemma BlockCutShort(b: WireBlock, k: nat)
    requires Sendable(b.qc) && b.Small() && Faithful(b.qc) && k < |PutBlock(b)|
    ensures GetBlock(KindOf(b.qc), PutBlock(b)[..k]) == Short
  {
    hide GetBlock, PutBlock, Faithful, Sendable;
    var whole := PutBlock(b);
    Cut(whole, k);
    BlockRoundTrip(b, []);
    BlockExtends(KindOf(b.qc), whole[..k], whole[k..]);
    CutIsShort(whole, k, GetBlock(KindOf(b.qc), whole[..k]), GetBlock(KindOf(b.qc), whole), b);
  }

  /** The same of votes, relays, proposals and finalities. */
  lemma VoteCutShort(v: Vote, k: nat)
    requires k < |PutVote(v)|
    ensures GetVote(PartKind(v.cert), PutVote(v)[..k]) == Short
  {
    hide GetVote, PutVote;
    var whole := PutVote(v);
    Cut(whole, k);
    VoteRoundTrip(v, []);
    VoteExtends(PartKind(v.cert), whole[..k], whole[k..]);
    CutIsShort(whole, k, GetVote(PartKind(v.cert), whole[..k]), GetVote(PartKind(v.cert), whole), v);
  }

  lemma RelayCutShort(v: VoteRelay, k: nat)
    requires Sendable(v.cert) && Faithful(v.cert) && k < |PutRelay(v)|
    ensures GetRelay(KindOf(v.cert), PutRelay(v)[..k]) == Short
  {
    hide GetRelay, PutRelay, Faithful, Sendable;
    var whole := PutRelay(v);
    Cut(whole, k);
    RelayRoundTrip(v, []);
    RelayExtends(KindOf(v.cert), whole[..k], whole[k..]);
    CutIsShort(whole, k, GetRelay(KindOf(v.cert), whole[..k]), GetRelay(KindOf(v.cert), whole), v);
  }

  lemma ProposalCutShort(p: Proposal, k: nat)
    requires Sendable(p.blk.qc) && p.blk.Small() && Faithful(p.blk.qc) && k < |PutProposal(p)|
    ensures GetProposal(KindOf(p.blk.qc), PutProposal(p)[..k]) == Short
  {
    hide GetProposal, PutProposal, Faithful, Sendable;
    var whole, kind := PutProposal(p), KindOf(p.blk.qc);
    Cut(whole, k);
    ProposalRoundTrip(p, []);
    ProposalExtends(kind, whole[..k], whole[k..]);
    CutIsShort(whole, k, GetProposal(kind, whole[..k]), GetProposal(kind, whole), p);
  }

  lemma FinalityCutShort(f: Finality, before: Hash, k: nat)
    requires f.Typed() && k < |PutFinality(f)|
    ensures GetFinality(before, PutFinality(f)[..k]) == Short
  {
    ShortAlike(before, f.blkHash, PutFinality(f)[..k]);
    hide GetFinality, PutFinality;
    var whole := PutFinality(f);
    Cut(whole, k);
    FinalityRoundTrip(f, f.blkHash, []);
    FinalityExtends(f.blkHash, whole[..k], whole[k..]);
    CutIsShort(whole, k, GetFinality(f.blkHash, whole[..k]), GetFinality(f.blkHash, whole), f);
  }

  /** What the reader held before does not decide whether there is enough to read. */
  lemma ShortAlike(before: Hash, before': Hash, s: seq<byte>)
    ensures GetFinality(before, s) == Short <==> GetFinality(before', s) == Short
  {
    hide GetReplica, GetHash, GetNumber;
  }
}
