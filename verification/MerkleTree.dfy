/** Merkle roots and inclusion paths over sorted-pair hashing, for an arbitrary 32-byte hash. */
module MerkleTree {
  import opened Collections

  type Byte = n: int | 0 <= n < 256
  type Bytes = seq<Byte>
  type H256 = s: seq<Byte> | |s| == 32 witness seq(32, _ => 0)
  type Hasher = Bytes -> H256

  datatype MerkleError = ErrorGeneratingRoot | LeafDataEmpty | EmptyLeaves
  datatype Outcome<T> = Ok(value: T) | Err(error: MerkleError)

  // ---------- pairs ----------

  /** The byte-wise order on hashes. */
  predicate LexLe(a: Bytes, b: Bytes)
    requires |a| == |b|
  {
    |a| == 0 || a[0] < b[0] || (a[0] == b[0] && LexLe(a[1..], b[1..]))
  }

  lemma {:induction false} LexLeIsTotalAndAntisymmetric(a: Bytes, b: Bytes)
    requires |a| == |b|
    ensures LexLe(a, b) || LexLe(b, a)
    ensures LexLe(a, b) && LexLe(b, a) ==> a == b
  {
    if |a| != 0 {
      LexLeIsTotalAndAntisymmetric(a[1..], b[1..]);
      assert a == [a[0]] + a[1..] && b == [b[0]] + b[1..];
    }
  }

  function SortAndConcatenatePair(left: H256, right: H256): (r: Bytes)
    ensures |r| == 64
  {
    if LexLe(left, right) then left + right else right + left
  }

  function Parent(keccak: Hasher, left: H256, right: H256): H256 {
    keccak(SortAndConcatenatePair(left, right))
  }

  /** A verifier does not need to know on which side the sibling was. */
  lemma ParentIsSymmetric(keccak: Hasher, left: H256, right: H256)
    ensures Parent(keccak, left, right) == Parent(keccak, right, left)
  {
    LexLeIsTotalAndAntisymmetric(left, right);
  }

  function LeafHashes(keccak: Hasher, leaves: seq<Bytes>): (r: seq<H256>)
    ensures |r| == |leaves|
    ensures forall i :: 0 <= i < |leaves| ==> r[i] == keccak(leaves[i])
  {
    seq(|leaves|, i requires 0 <= i < |leaves| => keccak(leaves[i]))
  }

  // ---------- the reference tree ----------

  datatype Tree = Leaf(hash: H256) | Node(left: Tree, right: Tree)

  function Fringe(t: Tree): seq<H256> {
    match t
    case Leaf(h) => [h]
    case Node(l, r) => Fringe(l) + Fringe(r)
  }

  function Digest(keccak: Hasher, t: Tree): H256 {
    match t
    case Leaf(h) => h
    case Node(l, r) => Parent(keccak, Digest(keccak, l), Digest(keccak, r))
  }

  function Height(t: Tree): nat {
    match t
    case Leaf(_) => 0
    case Node(l, r) => 1 + if Height(l) < Height(r) then Height(r) else Height(l)
  }

  // ---------- roots ----------

  /** One level up: adjacent nodes are paired, an odd last node moves up as it is. */
  function NextLevel(keccak: Hasher, nodes: seq<H256>): (r: seq<H256>)
    ensures |r| == (|nodes| + 1) / 2
  {
    if |nodes| == 0 then []
    else if |nodes| == 1 then nodes
    else [Parent(keccak, nodes[0], nodes[1])] + NextLevel(keccak, nodes[2..])
  }

  lemma {:induction false} NextLevelAt(keccak: Hasher, nodes: seq<H256>, i: nat)
    requires i < (|nodes| + 1) / 2
    ensures NextLevel(keccak, nodes)[i] ==
            if 2 * i + 1 < |nodes| then Parent(keccak, nodes[2 * i], nodes[2 * i + 1]) else nodes[2 * i]
  {
    if |nodes| > 1 && i > 0 {
      NextLevelAt(keccak, nodes[2..], i - 1);
    }
  }

  /** The one node left when levels are folded until a single node remains. */
  function Root(keccak: Hasher, nodes: seq<H256>): H256
    requires |nodes| > 0
    decreases |nodes|
  {
    if |nodes| == 1 then nodes[0] else Root(keccak, NextLevel(keccak, nodes))
  }

  method ProcessNodesInPairs(keccak: Hasher, nodes: seq<H256>) returns (processed: seq<H256>)
    ensures processed == NextLevel(keccak, nodes)
  {
    processed := [];
    for index := 0 to |nodes| / 2
      invariant |processed| == index
      invariant processed == NextLevel(keccak, nodes)[..index]
    {
      NextLevelAt(keccak, nodes, index);
      processed := processed + [Parent(keccak, nodes[2 * index], nodes[2 * index + 1])];
    }
    if |nodes| % 2 == 1 {
      NextLevelAt(keccak, nodes, |nodes| / 2);
      processed := processed + [nodes[|nodes| - 1]];
    }
  }

  method ProcessLevel(keccak: Hasher, nodes: seq<H256>) returns (processed: seq<H256>)
    ensures processed == if |nodes| == 0 then [] else [Root(keccak, nodes)]
    decreases |nodes|
  {
    processed := ProcessNodesInPairs(keccak, nodes);
    if |processed| > 1 {
      processed := ProcessLevel(keccak, processed);
    }
  }

  method GenerateTreeRoot(keccak: Hasher, leaves: seq<Bytes>) returns (r: Outcome<H256>)
    ensures r.Ok? <==> |leaves| > 0
    ensures r.Err? ==> r.error == ErrorGeneratingRoot
    ensures r.Ok? ==> r.value == Root(keccak, LeafHashes(keccak, leaves))
  {
    var rootNodes := ProcessLevel(keccak, LeafHashes(keccak, leaves));
    if |rootNodes| != 1 {
      return Err(ErrorGeneratingRoot);
    }
    r := Ok(rootNodes[0]);
  }

  // ---------- the root is the digest of a balanced tree over the leaves in order ----------

  function FringeOf(forest: seq<Tree>): seq<H256> {
    if |forest| == 0 then [] else Fringe(forest[0]) + FringeOf(forest[1..])
  }

  function Digests(keccak: Hasher, forest: seq<Tree>): (r: seq<H256>)
    ensures |r| == |forest|
    ensures forall i :: 0 <= i < |forest| ==> r[i] == Digest(keccak, forest[i])
  {
    seq(|forest|, i requires 0 <= i < |forest| => Digest(keccak, forest[i]))
  }

  function Leaves(nodes: seq<H256>): (r: seq<Tree>)
    ensures |r| == |nodes|
    ensures forall i :: 0 <= i < |nodes| ==> r[i] == Leaf(nodes[i])
  {
    seq(|nodes|, i requires 0 <= i < |nodes| => Leaf(nodes[i]))
  }

  function PairUp(forest: seq<Tree>): (r: seq<Tree>)
    ensures |r| == (|forest| + 1) / 2
  {
    if |forest| < 2 then forest else [Node(forest[0], forest[1])] + PairUp(forest[2..])
  }

  predicate NoHigherThan(forest: seq<Tree>, h: nat) {
    forall t :: t in forest ==> Height(t) <= h
  }

  lemma {:induction false} PairUpMirrorsNextLevel(keccak: Hasher, forest: seq<Tree>)
    ensures Digests(keccak, PairUp(forest)) == NextLevel(keccak, Digests(keccak, forest))
  {
    if |forest| >= 2 {
      var rest := forest[2..];
      PairUpMirrorsNextLevel(keccak, rest);
      assert Digests(keccak, forest)[2..] == Digests(keccak, rest);
      assert PairUp(forest)[1..] == PairUp(rest);
    }
  }

  lemma {:induction false} PairUpKeepsFringe(forest: seq<Tree>)
    ensures FringeOf(PairUp(forest)) == FringeOf(forest)
  {
    if |forest| >= 2 {
      PairUpKeepsFringe(forest[2..]);
      assert PairUp(forest)[1..] == PairUp(forest[2..]);
      assert forest[1..][1..] == forest[2..];
    }
  }

  lemma {:induction false} PairUpGrowsByOne(forest: seq<Tree>, h: nat)
    requires NoHigherThan(forest, h)
    ensures NoHigherThan(PairUp(forest), h + 1)
  {
    if |forest| >= 2 {
      var rest := forest[2..];
      assert forall t :: t in rest ==> t in forest;
      PairUpGrowsByOne(rest, h);
      assert forest[0] in forest && forest[1] in forest;
    }
  }

  lemma {:induction false} RootOfForest(keccak: Hasher, forest: seq<Tree>, h: nat, k: nat) returns (t: Tree)
    requires 0 < |forest| <= Pow2(k)
    requires NoHigherThan(forest, h)
    ensures Digest(keccak, t) == Root(keccak, Digests(keccak, forest))
    ensures Fringe(t) == FringeOf(forest)
    ensures Height(t) <= h + k
    decreases |forest|
  {
    if |forest| == 1 {
      t := forest[0];
      assert forest[0] in forest;
      assert FringeOf(forest) == Fringe(t) + FringeOf(forest[1..]);
    } else {
      PairUpMirrorsNextLevel(keccak, forest);
      PairUpKeepsFringe(forest);
      PairUpGrowsByOne(forest, h);
      t := RootOfForest(keccak, PairUp(forest), h + 1, k - 1);
    }
  }

  lemma {:induction false} FringeOfLeaves(nodes: seq<H256>)
    ensures FringeOf(Leaves(nodes)) == nodes
  {
    if |nodes| > 0 {
      FringeOfLeaves(nodes[1..]);
      assert Leaves(nodes)[1..] == Leaves(nodes[1..]);
    }
  }

  /** The root is the digest of a tree that has exactly the leaf hashes, in order, as its fringe and
      whose height is at most the logarithm of their number. */
  lemma RootIsDigestOfBalancedTree(keccak: Hasher, nodes: seq<H256>, k: nat) returns (t: Tree)
    requires 0 < |nodes| <= Pow2(k)
    ensures Digest(keccak, t) == Root(keccak, nodes)
    ensures Fringe(t) == nodes
    ensures Height(t) <= k
  {
    FringeOfLeaves(nodes);
    assert Digests(keccak, Leaves(nodes)) == nodes;
    t := RootOfForest(keccak, Leaves(nodes), 0, k);
  }

  // ---------- inclusion paths ----------

  /** What a verifier computes: hash the siblings of the path onto the starting node one by one. */
  function FoldPath(keccak: Hasher, start: H256, path: seq<H256>): H256 {
    if |path| == 0 then start
    else Parent(keccak, FoldPath(keccak, start, path[..|path| - 1]), path[|path| - 1])
  }

  lemma FoldPathPush(keccak: Hasher, start: H256, path: seq<H256>, sibling: H256)
    ensures FoldPath(keccak, start, path + [sibling]) ==
            Parent(keccak, FoldPath(keccak, start, path), sibling)
  {
    assert (path + [sibling])[..|path|] == path;
  }

  /** Where the followed node is in the pair, push its sibling and go on with the parent. */
  method ProcessPairForPath(keccak: Hasher, ghost start: H256, left: H256, right: H256, node: H256, path: seq<H256>)
    returns (node': H256, path': seq<H256>)
    requires FoldPath(keccak, start, path) == node
    ensures FoldPath(keccak, start, path') == node'
    ensures node' == if node == left || node == right then Parent(keccak, left, right) else node
  {
    node', path' := node, path;
    if node == left {
      FoldPathPush(keccak, start, path, right);
      node', path' := Parent(keccak, left, right), path + [right];
    } else if node == right {
      FoldPathPush(keccak, start, path, left);
      ParentIsSymmetric(keccak, left, right);
      node', path' := Parent(keccak, left, right), path + [left];
    }
  }

  /** A followed node that is in the pair goes on as the parent; otherwise it is done with or still to come. */
  lemma StaysInLevel(nodes: seq<H256>, index: nat, processed: seq<H256>, node: H256, parent: H256)
    requires index < |nodes| / 2
    ensures node in nodes[2 * index..] ==>
              node == nodes[2 * index] || node == nodes[2 * index + 1] || node in nodes[2 * (index + 1)..]
    ensures node in processed ==> node in processed + [parent]
    ensures parent in processed + [parent]
  {
    assert nodes[2 * index..] == [nodes[2 * index], nodes[2 * index + 1]] + nodes[2 * (index + 1)..];
    assert (processed + [parent])[|processed|] == parent;
  }

  method ProcessNodesInPairsForPath(keccak: Hasher, ghost start: H256, nodes: seq<H256>, node: H256, path: seq<H256>)
    returns (node': H256, path': seq<H256>, processed: seq<H256>)
    requires FoldPath(keccak, start, path) == node
    ensures processed == NextLevel(keccak, nodes)
    ensures FoldPath(keccak, start, path') == node'
    ensures node in nodes ==> node' in processed
  {
    processed := [];
    node', path' := node, path;
    for index := 0 to |nodes| / 2
      invariant |processed| == index
      invariant processed == NextLevel(keccak, nodes)[..index]
      invariant FoldPath(keccak, start, path') == node'
      invariant node in nodes ==> node' in processed || node' in nodes[2 * index..]
    {
      NextLevelAt(keccak, nodes, index);
      var left, right := nodes[2 * index], nodes[2 * index + 1];
      var nodeHash := Parent(keccak, left, right);
      StaysInLevel(nodes, index, processed, node', nodeHash);
      node', path' := ProcessPairForPath(keccak, start, left, right, node', path');
      processed := processed + [nodeHash];
    }
    if |nodes| % 2 == 1 {
      NextLevelAt(keccak, nodes, |nodes| / 2);
      assert nodes[2 * (|nodes| / 2)..] == [nodes[|nodes| - 1]];
      processed := processed + [nodes[|nodes| - 1]];
    }
  }

  method ProcessLevelForPath(keccak: Hasher, ghost start: H256, nodes: seq<H256>, node: H256, path: seq<H256>)
    returns (node': H256, path': seq<H256>, processed: seq<H256>)
    requires |nodes| > 0
    requires FoldPath(keccak, start, path) == node
    ensures processed == [Root(keccak, nodes)]
    ensures FoldPath(keccak, start, path') == node'
    ensures node in nodes ==> node' == Root(keccak, nodes)
    decreases |nodes|
  {
    node', path', processed := ProcessNodesInPairsForPath(keccak, start, nodes, node, path);
    if |processed| > 1 {
      node', path', processed := ProcessLevelForPath(keccak, start, processed, node', path');
    }
  }

  /** The path of any non-empty leaf of the list (duplicates and hash collisions included) leads a
      verifier from the leaf hash to the root that `GenerateTreeRoot` returns for the same list. */
  method GenerateMerklePath(keccak: Hasher, leaf: Bytes, leaves: seq<Bytes>) returns (r: Outcome<seq<H256>>)
    ensures r.Ok? <==> |leaf| > 0 && |leaves| > 0
    ensures r.Err? ==> r.error == if |leaf| == 0 then LeafDataEmpty else EmptyLeaves
    ensures r.Ok? && leaf in leaves ==>
              FoldPath(keccak, keccak(leaf), r.value) == Root(keccak, LeafHashes(keccak, leaves))
  {
    if |leaf| == 0 {
      return Err(LeafDataEmpty);
    }
    if |leaves| == 0 {
      return Err(EmptyLeaves);
    }
    var node, path, processed :=
      ProcessLevelForPath(keccak, keccak(leaf), LeafHashes(keccak, leaves), keccak(leaf), []);
    if leaf in leaves {
      ghost var i :| 0 <= i < |leaves| && leaves[i] == leaf;
      assert LeafHashes(keccak, leaves)[i] == keccak(leaf);
    }
    r := Ok(path);
  }
}
