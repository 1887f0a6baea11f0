/** One replica's part in the aggregation of votes, as its handlers keep it: the certificate it collects for
  * the block, and what it has sent or passed on.  Every handler is proved to do what Convergecast says. */
module VoteCollector {
  import opened Blocks
  import opened Tree
  import opened Convergecast

  class Collector {
    const net: Net
    const id: nat
    const numberOfChildren: nat
    const isLeaf: bool
    var cert: Option<Gathered>
    var sent: seq<Gathered>
    var finished: nat

    ghost predicate Valid() {
      && net.Valid() && id < net.n
      && numberOfChildren == net.NumberOfChildren(id)
      && isLeaf == net.IsLeaf(id)
    }

    /** This replica is where s has it. */
    ghost predicate Mirrors(s: State)
      reads this
    {
      && Valid() && Shaped(net, s)
      && s.certs[id] == cert && s.sent[id] == sent && (id == 0 ==> s.finished == finished)
    }

    constructor (net: Net, id: nat, numberOfChildren: nat, isLeaf: bool)
      requires net.Valid() && id < net.n
      requires numberOfChildren == net.NumberOfChildren(id) && isLeaf == net.IsLeaf(id)
      ensures Mirrors(Initial(net)) && this.net == net && this.id == id
    {
      this.net, this.id, this.numberOfChildren, this.isLeaf := net, id, numberOfChildren, isLeaf;
      sent, finished := [], 0;
      cert := if id != 0 then None else Some(if net.rootSigns then Single(0) else Gathered({}, multiset{}));
    }

    /** The replica votes. */
    method DoVote(ghost s: State)
      requires Mirrors(s)
      modifies this
      ensures Mirrors(CastVote(net, s, id))
    {
      if isLeaf {
        sent := sent + [Single(id)];
      } else if cert.None? {
        cert := Some(Single(id));
      }
    }

    /** A vote or relay comes in: open a certificate if there is none, and drop the message if it has a quorum. */
    method OnMessage(ghost s: State, ghost a: (nat, nat)) returns (dropped: bool)
      requires Mirrors(s)
      modifies this
      ensures Mirrors(Take(net, s, id, a))
      ensures dropped <==> |Opened(s, id).signers| >= net.NMajority()
    {
      if cert.None? {
        cert := Some(Single(id));
      }
      dropped := |cert.value.signers| >= net.NMajority();
    }

    /** The message g has been verified. */
    method OnVerified(ghost s: State, relayed: bool, g: Gathered)
      requires Mirrors(s)
      modifies this
      ensures Mirrors(Receive(net, s, id, relayed, g))
    {
      var was := if cert.None? then Single(id) else cert.value;
      if relayed && |was.signers| >= net.NMajority() {
        return;
      }
      if id != 0 && |was.signers| >= numberOfChildren + 1 {
        return;
      }
      var all := Merge(was, g);
      cert := Some(all);
      if id != 0 {
        if |all.signers| < numberOfChildren + 1 {
          return;
        }
        if !all.Verifies() {
          return;
        }
        sent := sent + [all];
        return;
      }
      if |all.signers| < net.NMajority() {
        return;
      }
      if relayed && !all.Verifies() {
        return;
      }
      finished := finished + 1;
    }
  }
}
