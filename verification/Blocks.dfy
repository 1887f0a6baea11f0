/** Blocks as the replicas name them.
  *
  * A block's hash covers its parent hashes, its commands, the certificate it
  * carries and its extra bytes.  With a collision-free hash two blocks are the
  * same exactly when these fields are, so a block is modelled by the value of
  * its hashed fields, and following a hash is taking a component.
  */
module Blocks {

  datatype Option<+T> = None | Some(value: T)

  type ReplicaId = nat
  type Command = nat

  /** A quorum certificate, as far as consensus looks at it: what was signed, and by whom. */
  datatype Cert = Cert(obj: Block, signers: set<ReplicaId>)

  datatype Block =
    | Genesis
    | Block(parents: seq<Block>, cmds: seq<Command>, qc: Cert, extra: seq<nat>)
  {
    function Parents(): seq<Block> {
      if Genesis? then [] else parents
    }

    function Cmds(): seq<Command> {
      if Genesis? then [] else cmds
    }

    /** The carried certificate; genesis is given one over itself, signed by nobody. */
    function Qc(): Cert {
      if Genesis? then Cert(Genesis, {}) else qc
    }

    function QcObj(): Block {
      Qc().obj
    }

    predicate HasParent() {
      Parents() != []
    }
  }

  /** Distance to the first block without a parent, along parents[0]. */
  function Height(b: Block): nat {
    if b.HasParent() then Height(b.parents[0]) + 1 else 0
  }

  /** a is b or an ancestor of b along parents[0]. */
  predicate Extends(b: Block, a: Block) {
    b == a || (b.HasParent() && Extends(b.parents[0], a))
  }

  /** The ancestors of b (b included) strictly above height h, lowest first. */
  function PathAbove(b: Block, h: nat): seq<Block> {
    if Height(b) <= h then []
    else PathAbove(b.parents[0], h) + [b]
  }

  /** The chain that commits b: every block after genesis up to b, lowest first. */
  function Path(b: Block): seq<Block> {
    PathAbove(b, 0)
  }

  lemma {:induction false} ExtendsTransitive(c: Block, b: Block, a: Block)
    requires Extends(c, b) && Extends(b, a)
    ensures Extends(c, a)
  {
    if c != b {
      ExtendsTransitive(c.parents[0], b, a);
    }
  }

  lemma {:induction false} ExtendsHeight(b: Block, a: Block)
    requires Extends(b, a)
    ensures Height(a) <= Height(b)
    ensures Height(a) == Height(b) ==> a == b
  {
    if b != a {
      ExtendsHeight(b.parents[0], a);
    }
  }

  /** Two ancestors of one block lie on one chain. */
  lemma {:induction false} ExtendsTotal(c: Block, b: Block, a: Block)
    requires Extends(c, b) && Extends(c, a) && Height(a) <= Height(b)
    ensures Extends(b, a)
  {
    if c != b {
      ExtendsHeight(c, b);
      ExtendsHeight(c.parents[0], b);
      if c == a {
        assert false;
      }
      ExtendsTotal(c.parents[0], b, a);
    }
  }

  /** Only genesis sits at height 0 of a chain that starts at genesis. */
  lemma RootedAtZero(b: Block)
    requires Extends(b, Genesis) && Height(b) == 0
    ensures b == Genesis
  {
    ExtendsHeight(b, Genesis);
  }

  /** Committing the stretch above an ancestor completes the ancestor's path. */
  lemma {:induction false} PathSplit(b: Block, a: Block)
    requires Extends(b, a)
    ensures Path(a) + PathAbove(b, Height(a)) == Path(b)
    decreases b
  {
    if b == a {
      assert PathAbove(b, Height(a)) == [];
    } else {
      ExtendsHeight(b.parents[0], a);
      PathSplit(b.parents[0], a);
      assert Path(b) == Path(b.parents[0]) + [b];
      assert PathAbove(b, Height(a)) == PathAbove(b.parents[0], Height(a)) + [b];
    }
  }

  /** What the path is: one block per height from 1 to b's, each an ancestor of b and the child of the one before. */
  lemma {:induction false} PathAboveShape(b: Block, h: nat)
    requires Extends(b, Genesis)
    ensures |PathAbove(b, h)| == if Height(b) <= h then 0 else Height(b) - h
    ensures forall i | 0 <= i < |PathAbove(b, h)| ::
      && Height(PathAbove(b, h)[i]) == h + 1 + i
      && Extends(b, PathAbove(b, h)[i])
      && PathAbove(b, h)[i].HasParent()
      && (i > 0 ==> PathAbove(b, h)[i].parents[0] == PathAbove(b, h)[i - 1])
    decreases b
  {
    if Height(b) > h {
      PathAboveShape(b.parents[0], h);
    }
  }

  /** A block is on the path above h exactly when it is an ancestor above h. */
  lemma {:induction false} InPathAbove(b: Block, h: nat, a: Block)
    ensures a in PathAbove(b, h) <==> Extends(b, a) && Height(a) > h
    decreases b
  {
    if Height(b) > h {
      InPathAbove(b.parents[0], h, a);
    } else if Extends(b, a) {
      ExtendsHeight(b, a);
    }
  }

  /** One block per height, starting at height 1 on top of genesis, each the child of the one before. */
  predicate ChainFromGenesis(q: seq<Block>) {
    forall k | 0 <= k < |q| ::
      && Height(q[k]) == k + 1
      && q[k].HasParent()
      && q[k].parents[0] == if k == 0 then Genesis else q[k - 1]
  }

  lemma {:induction false} PathIsChain(b: Block)
    requires Extends(b, Genesis)
    ensures ChainFromGenesis(Path(b)) && |Path(b)| == Height(b)
    ensures Path(b) != [] ==> Path(b)[|Path(b)| - 1] == b
  {
    if Height(b) > 0 {
      PathIsChain(b.parents[0]);
      assert Path(b) == Path(b.parents[0]) + [b];
      if Height(b) == 1 {
        RootedAtZero(b.parents[0]);
      }
    }
  }

  /** The path and genesis are all there is below b. */
  lemma OnPath(b: Block, x: Block)
    requires Extends(b, Genesis)
    ensures Extends(b, x) <==> x == Genesis || x in Path(b)
  {
    InPathAbove(b, 0, x);
    if Extends(b, x) && Height(x) == 0 {
      ExtendsTotal(b, x, Genesis);
      RootedAtZero(x);
    }
  }
}
