/**
 * The Merkle commitment over the shares of one split: a heap-shaped array of
 * digests with leaf and node prefixes in the style of section 2.1 of RFC 6962.
 * The digest function is a parameter, so every statement holds for any hash
 * with 32-byte output; soundness hands back a collision of that hash.
 */
module Merkle {
  import opened Options
  import opened GF256

  type Bytes = seq<Elem>
  type Digest = d: Bytes | |d| == 32 witness seq(32, _ => Elem(0))
  type Hash = Bytes -> Digest

  const LEAF_PREFIX := Elem(0x00)
  const NODE_PREFIX := Elem(0x01)

  /** One share: the point (index, data) of each byte column's polynomial. */
  datatype Share = Share(index: U8, data: Bytes)

  datatype ProofStep = ProofStep(sibling: Digest, currentIsLeft: bool)

  datatype Commitments = Commitments(root: Digest, tree: seq<Digest>, leafCount: nat, shareCount: nat)

  function LeafInput(s: Share): Bytes {
    [LEAF_PREFIX, Point(s.index)] + s.data
  }

  function NodeInput(left: Digest, right: Digest): Bytes {
    [NODE_PREFIX] + left + right
  }

  function LeafDigest(h: Hash, s: Share): Digest {
    h(LeafInput(s))
  }

  function NodeDigest(h: Hash, left: Digest, right: Digest): Digest {
    h(NodeInput(left, right))
  }

  function ZeroDigest(): Digest {
    seq(32, _ => Zero)
  }

  // ---- powers of two ------------------------------------------------------------

  predicate IsPow2(n: nat) {
    n == 1 || (n > 1 && n % 2 == 0 && IsPow2(n / 2))
  }

  /** The smallest power of two that is at least n (1 for 0). */
  function NextPow2(n: nat): (r: nat)
    ensures IsPow2(r) && r >= n && r >= 1
    ensures r == 1 || r < 2 * n
  {
    if n <= 1 then 1 else 2 * NextPow2((n + 1) / 2)
  }

  function TrailingZeros(n: nat): nat
    requires n > 0
  {
    if n % 2 == 1 then 0 else 1 + TrailingZeros(n / 2)
  }

  // ---- the tree ---------------------------------------------------------------

  /** The digest stored for leaf position p: a share's, or zero padding. */
  function LeafAt(h: Hash, shares: seq<Share>, p: nat): Digest {
    if p < |shares| then LeafDigest(h, shares[p]) else ZeroDigest()
  }

  predicate IsNode(h: Hash, tree: seq<Digest>, i: nat)
    requires 2 * i + 1 < |tree|
  {
    tree[i] == NodeDigest(h, tree[2 * i], tree[2 * i + 1])
  }

  ghost predicate IsTree(h: Hash, shares: seq<Share>, tree: seq<Digest>, leafCount: nat) {
    && IsPow2(leafCount)
    && |shares| <= leafCount
    && |tree| == 2 * leafCount
    && (forall k :: leafCount <= k < 2 * leafCount ==> tree[k] == LeafAt(h, shares, k - leafCount))
    && (forall i :: 1 <= i < leafCount ==> IsNode(h, tree, i))
  }

  ghost predicate Commits(h: Hash, shares: seq<Share>, c: Commitments) {
    && c.shareCount == |shares|
    && c.leafCount == NextPow2(|shares|)
    && IsTree(h, shares, c.tree, c.leafCount)
    && c.root == c.tree[1]
  }

  /** The inner nodes, last to first, in place. */
  method FillNodes(h: Hash, tree: array<Digest>, leafCount: nat)
    requires leafCount >= 1 && tree.Length == 2 * leafCount
    modifies tree
    ensures tree[leafCount..] == old(tree[leafCount..])
    ensures forall k :: 1 <= k < leafCount ==> IsNode(h, tree[..], k)
  {
    hide NodeDigest;
    var i := leafCount;
    while i > 1
      invariant 1 <= i <= leafCount
      invariant tree[leafCount..] == old(tree[leafCount..])
      invariant forall k :: i <= k < leafCount ==> IsNode(h, tree[..], k)
    {
      i := i - 1;
      ghost var before := tree[..];
      tree[i] := NodeDigest(h, tree[2 * i], tree[2 * i + 1]);
      NodesKept(h, before, tree[..], i, leafCount);
    }
  }

  lemma NodesKept(h: Hash, before: seq<Digest>, after: seq<Digest>, i: nat, leafCount: nat)
    requires 1 <= i < leafCount && |before| == |after| == 2 * leafCount
    requires after == before[i := NodeDigest(h, before[2 * i], before[2 * i + 1])]
    requires forall k :: i < k < leafCount ==> IsNode(h, before, k)
    ensures forall k :: i <= k < leafCount ==> IsNode(h, after, k)
  {
    hide NodeDigest;
    forall k | i <= k < leafCount
      ensures IsNode(h, after, k)
    {
      if k > i {
        assert IsNode(h, before, k);
      }
    }
  }

  /** The leaf level, in place; positions past the shares keep their zero digest. */
  method FillLeaves(h: Hash, tree: array<Digest>, shares: seq<Share>, leafCount: nat)
    requires |shares| <= leafCount && tree.Length == 2 * leafCount
    requires forall k :: 0 <= k < tree.Length ==> tree[k] == ZeroDigest()
    modifies tree
    ensures forall k :: leafCount <= k < tree.Length ==> tree[k] == LeafAt(h, shares, k - leafCount)
  {
    hide LeafDigest, ZeroDigest;
    for i := 0 to |shares|
      invariant forall k :: leafCount <= k < leafCount + i ==> tree[k] == LeafAt(h, shares, k - leafCount)
      invariant forall k :: leafCount + i <= k < tree.Length ==> tree[k] == ZeroDigest()
    {
      tree[leafCount + i] := LeafDigest(h, shares[i]);
    }
  }

  method NewCommitments(h: Hash, shares: seq<Share>) returns (c: Commitments)
    ensures Commits(h, shares, c)
  {
    hide LeafAt, IsNode, ZeroDigest, IsPow2, NextPow2;
    var leafCount := NextPow2(if |shares| > 1 then |shares| else 1);
    assert leafCount == NextPow2(|shares|) by {
      NextPow2Small();
    }
    var tree := new Digest[2 * leafCount](_ => ZeroDigest());
    FillLeaves(h, tree, shares, leafCount);
    ghost var leaves := tree[leafCount..];
    FillNodes(h, tree, leafCount);
    assert forall k :: leafCount <= k < 2 * leafCount ==> tree[k] == tree[leafCount..][k - leafCount];
    c := Commitments(tree[1], tree[..], leafCount, |shares|);
  }

  lemma NextPow2Small()
    ensures NextPow2(0) == NextPow2(1) == 1
  {
  }

  // ---- proofs -------------------------------------------------------------------

  function Sibling(idx: nat): nat {
    if idx % 2 == 0 then idx + 1 else idx - 1
  }

  function Path(tree: seq<Digest>, idx: nat): seq<ProofStep>
    requires idx < |tree| && |tree| % 2 == 0
  {
    if idx <= 1 then [] else [ProofStep(tree[Sibling(idx)], idx % 2 == 0)] + Path(tree, idx / 2)
  }

  method Proof(c: Commitments, shareIndex: U8) returns (steps: Option<seq<ProofStep>>)
    requires c.shareCount <= c.leafCount && |c.tree| == 2 * c.leafCount
    ensures steps == if shareIndex == 0 || shareIndex > c.shareCount then None
                     else Some(Path(c.tree, c.leafCount + shareIndex - 1))
  {
    if shareIndex == 0 || shareIndex - 1 >= c.shareCount {
      return None;
    }
    var idx: nat := c.leafCount + (shareIndex - 1);
    var acc: seq<ProofStep> := [];
    while idx > 1
      invariant idx < |c.tree|
      invariant acc + Path(c.tree, idx) == Path(c.tree, c.leafCount + shareIndex - 1)
    {
      acc := acc + [ProofStep(c.tree[Sibling(idx)], idx % 2 == 0)];
      idx := idx / 2;
    }
    assert idx <= 1 && Path(c.tree, idx) == [];
    assert acc + [] == acc;
    steps := Some(acc);
  }

  function Parent(h: Hash, digest: Digest, position: nat, sibling: Digest): Digest {
    if position % 2 == 0 then NodeDigest(h, digest, sibling) else NodeDigest(h, sibling, digest)
  }

  function Climb(h: Hash, digest: Digest, position: nat, steps: seq<ProofStep>): Digest
    decreases |steps|
  {
    if steps == [] then digest
    else Climb(h, Parent(h, digest, position, steps[0].sibling), position / 2, steps[1..])
  }

  /** What a verifier accepts. The step's own side flag is never consulted. */
  predicate Verifies(h: Hash, share: Share, root: Digest, steps: seq<ProofStep>, shareCount: nat) {
    && 0 < share.index <= shareCount
    && |steps| == TrailingZeros(NextPow2(shareCount))
    && Climb(h, LeafDigest(h, share), share.index - 1, steps) == root
  }

  method VerifyShare(h: Hash, share: Share, root: Digest, steps: seq<ProofStep>, shareCount: nat)
    returns (ok: bool)
    ensures ok <==> Verifies(h, share, root, steps, shareCount)
  {
    if share.index == 0 || share.index > shareCount {
      return false;
    }
    if |steps| != TrailingZeros(NextPow2(shareCount)) {
      return false;
    }
    var position: nat := share.index - 1;
    var digest := LeafDigest(h, share);
    for i := 0 to |steps|
      invariant Climb(h, digest, position, steps[i..]) == Climb(h, LeafDigest(h, share), share.index - 1, steps)
    {
      assert steps[i..][1..] == steps[i + 1..];
      digest := Parent(h, digest, position, steps[i].sibling);
      position := position / 2;
    }
    ok := digest == root;
  }

  // ---- completeness -------------------------------------------------------------

  lemma SiblingParity(m: nat, idx: nat)
    requires m % 2 == 0 && 1 < m <= idx < 2 * m
    ensures (idx - m) % 2 == idx % 2
    ensures idx % 2 == 0 ==> idx == 2 * (idx / 2) && Sibling(idx) == 2 * (idx / 2) + 1
    ensures idx % 2 == 1 ==> idx == 2 * (idx / 2) + 1 && Sibling(idx) == 2 * (idx / 2)
    ensures 2 * (idx / 2) + 1 < 2 * m && Sibling(idx) < 2 * m
  {
    var k, b := idx / 2, idx % 2;
    var j := m / 2;
    Halves(idx);
    Halves(m);
    assert idx == 2 * k + b && m == 2 * j;
    assert idx - m == 2 * (k - j) + b;
    Doubled(k - j, b);
  }

  lemma Halves(x: nat)
    ensures x == 2 * (x / 2) + x % 2 && 0 <= x % 2 < 2
  {
  }

  lemma Doubled(k: nat, b: nat)
    requires b < 2
    ensures (2 * k + b) % 2 == b
  {
  }

  lemma ParentOfStored(h: Hash, tree: seq<Digest>, m: nat, idx: nat)
    requires m > 1 && m % 2 == 0 && m <= idx < 2 * m <= |tree|
    requires 2 * (idx / 2) + 1 < |tree| && Sibling(idx) < |tree| && IsNode(h, tree, idx / 2)
    ensures Parent(h, tree[idx], idx - m, tree[Sibling(idx)]) == tree[idx / 2]
  {
    hide NodeDigest, Sibling;
    SiblingParity(m, idx);
  }

  /** Climbing a stored node's own path reaches the root, one step per level. */
  lemma {:induction false} ClimbOwnPath(h: Hash, tree: seq<Digest>, m: nat, idx: nat)
    requires IsPow2(m) && m <= idx < 2 * m <= |tree| && |tree| % 2 == 0
    requires forall i :: 1 <= i < m ==> IsNode(h, tree, i)
    ensures |Path(tree, idx)| == TrailingZeros(m)
    ensures Climb(h, tree[idx], idx - m, Path(tree, idx)) == tree[1]
    decreases m
  {
    hide Parent, IsNode;
    if m > 1 {
      ClimbOwnPath(h, tree, m / 2, idx / 2);
      SiblingParity(m, idx);
      ParentOfStored(h, tree, m, idx);
      assert Path(tree, idx)[1..] == Path(tree, idx / 2);
    }
  }

  /** Every committed share verifies with the proof the commitment hands out. */
  lemma CommittedShareVerifies(h: Hash, shares: seq<Share>, c: Commitments, i: U8)
    requires Commits(h, shares, c)
    requires 1 <= i <= |shares| && shares[i - 1].index == i
    ensures Verifies(h, shares[i - 1], c.root, Path(c.tree, c.leafCount + i - 1), c.shareCount)
  {
    hide LeafDigest, IsPow2, ZeroDigest, NextPow2, TrailingZeros, NodeDigest;
    ClimbOwnPath(h, c.tree, c.leafCount, c.leafCount + i - 1);
  }

  // ---- soundness by extraction ----------------------------------------------------

  datatype Collision = Collision(first: Bytes, second: Bytes)

  ghost predicate IsCollision(h: Hash, c: Collision) {
    c.first != c.second && h(c.first) == h(c.second)
  }

  function ParentInput(digest: Digest, position: nat, sibling: Digest): Bytes {
    if position % 2 == 0 then NodeInput(digest, sibling) else NodeInput(sibling, digest)
  }

  /** Walk up from node idx, where `digest` differs from the stored digest, to the
      first level at which the two parents agree. */
  function ExtractNode(h: Hash, tree: seq<Digest>, idx: nat, digest: Digest, position: nat, steps: seq<ProofStep>): Collision
    requires idx < |tree| && |tree| % 2 == 0
    decreases idx
  {
    if idx <= 1 || steps == [] then Collision([], [])
    else
      var up := idx / 2;
      var mine := ParentInput(digest, position, steps[0].sibling);
      if h(mine) == tree[up] then Collision(mine, NodeInput(tree[2 * up], tree[2 * up + 1]))
      else ExtractNode(h, tree, up, h(mine), position / 2, steps[1..])
  }

  function Extract(h: Hash, shares: seq<Share>, c: Commitments, share: Share, steps: seq<ProofStep>): Collision
    requires 1 <= share.index <= |shares| <= c.leafCount && |c.tree| == 2 * c.leafCount
  {
    var idx := c.leafCount + share.index - 1;
    if LeafDigest(h, share) == c.tree[idx] then Collision(LeafInput(share), LeafInput(shares[share.index - 1]))
    else ExtractNode(h, c.tree, idx, LeafDigest(h, share), share.index - 1, steps)
  }

  lemma NodeInputInjective(a: Digest, b: Digest, c: Digest, d: Digest)
    requires NodeInput(a, b) == NodeInput(c, d)
    ensures a == c && b == d
  {
    assert NodeInput(a, b)[1..1 + |a|] == a;
    assert NodeInput(c, d)[1..1 + |c|] == c;
    assert NodeInput(a, b)[1 + |a|..] == b;
    assert NodeInput(c, d)[1 + |c|..] == d;
  }

  lemma LeafInputInjective(s: Share, t: Share)
    requires LeafInput(s) == LeafInput(t)
    ensures s == t
  {
    hide Point;
    assert LeafInput(s)[1] == Point(s.index) && LeafInput(t)[1] == Point(t.index);
    PointInjective(s.index, t.index);
    assert LeafInput(s)[2..] == s.data && LeafInput(t)[2..] == t.data;
  }

  lemma ParentInputsDiffer(h: Hash, tree: seq<Digest>, idx: nat, digest: Digest, position: nat, sibling: Digest)
    requires 1 < idx < |tree| && |tree| % 2 == 0
    requires position % 2 == idx % 2
    requires digest != tree[idx]
    ensures ParentInput(digest, position, sibling) != NodeInput(tree[2 * (idx / 2)], tree[2 * (idx / 2) + 1])
  {
    hide NodeInput;
    var left := 2 * (idx / 2);
    if ParentInput(digest, position, sibling) == NodeInput(tree[left], tree[left + 1]) {
      if idx % 2 == 0 {
        NodeInputInjective(digest, sibling, tree[left], tree[left + 1]);
      } else {
        NodeInputInjective(sibling, digest, tree[left], tree[left + 1]);
      }
    }
  }

  lemma {:induction false} ExtractNodeFinds(h: Hash, shares: seq<Share>, tree: seq<Digest>, leafCount: nat,
                                            m: nat, idx: nat, digest: Digest, steps: seq<ProofStep>)
    requires IsTree(h, shares, tree, leafCount)
    requires IsPow2(m) && m <= leafCount && m <= idx < 2 * m
    requires |steps| == TrailingZeros(m)
    requires digest != tree[idx]
    requires Climb(h, digest, idx - m, steps) == tree[1]
    ensures IsCollision(h, ExtractNode(h, tree, idx, digest, idx - m, steps))
    decreases m
  {
    hide LeafAt, NodeInput, IsPow2, TrailingZeros, Climb, Parent, ParentInput;
    HalfLevel(m, idx, |tree|);
    ClimbStep(h, digest, idx - m, steps);
    if m > 1 {
      var up := idx / 2;
      var mine := ParentInput(digest, idx - m, steps[0].sibling);
      assert IsNode(h, tree, up);
      ParentIsHash(h, digest, idx - m, steps[0].sibling);
      if h(mine) == tree[up] {
        ParentInputsDiffer(h, tree, idx, digest, idx - m, steps[0].sibling);
      } else {
        ExtractNodeFinds(h, shares, tree, leafCount, m / 2, up, h(mine), steps[1..]);
      }
    }
  }

  /** One level up from node `idx` of the level that starts at `m`. */
  lemma HalfLevel(m: nat, idx: nat, size: nat)
    requires IsPow2(m) && m <= idx < 2 * m <= size && size % 2 == 0
    ensures m == 1 ==> idx == 1 && TrailingZeros(m) == 0
    ensures m > 1 ==>
      && m % 2 == 0 && IsPow2(m / 2) && TrailingZeros(m) == 1 + TrailingZeros(m / 2)
      && m / 2 <= idx / 2 < 2 * (m / 2) && (idx - m) / 2 == idx / 2 - m / 2
      && (idx - m) % 2 == idx % 2
  {
    if m > 1 {
      Halves(m);
      Halves(idx);
      SiblingParity(m, idx);
      HalfDifference(idx / 2, m / 2, idx % 2);
    }
  }

  lemma HalfDifference(k: nat, j: nat, b: nat)
    requires b < 2 && k >= j
    ensures (2 * k + b - 2 * j) / 2 == k - j
  {
    assert 2 * k + b - 2 * j == 2 * (k - j) + b;
  }

  lemma ClimbStep(h: Hash, digest: Digest, position: nat, steps: seq<ProofStep>)
    ensures steps == [] ==> Climb(h, digest, position, steps) == digest
    ensures steps != [] ==>
              Climb(h, digest, position, steps) == Climb(h, Parent(h, digest, position, steps[0].sibling), position / 2, steps[1..])
  {
  }

  lemma ParentIsHash(h: Hash, digest: Digest, position: nat, sibling: Digest)
    ensures h(ParentInput(digest, position, sibling)) == Parent(h, digest, position, sibling)
  {
  }

  /** Binding: a share that verifies at index i is committed share i, or the
      extractor turns it into two distinct inputs with equal digest. */
  lemma VerifiedShareIsCommitted(h: Hash, shares: seq<Share>, c: Commitments, share: Share, steps: seq<ProofStep>)
    requires Commits(h, shares, c)
    requires Verifies(h, share, c.root, steps, c.shareCount)
    ensures share == shares[share.index - 1] || IsCollision(h, Extract(h, shares, c, share, steps))
  {
    hide LeafInput, IsPow2, ZeroDigest, NodeInput, Climb, NextPow2, TrailingZeros, ExtractNode;
    var i := share.index - 1;
    var idx := c.leafCount + i;
    if LeafDigest(h, share) == c.tree[idx] {
      if LeafInput(share) == LeafInput(shares[i]) {
        LeafInputInjective(share, shares[i]);
      }
    } else {
      ExtractNodeFinds(h, shares, c.tree, c.leafCount, c.leafCount, idx, LeafDigest(h, share), steps);
    }
  }

  /** Leaves and nodes are hashed under different prefixes, and padding is no digest of a share. */
  lemma LeavesAreNotNodes(h: Hash, s: Share, left: Digest, right: Digest, shares: seq<Share>, p: nat)
    ensures LeafInput(s) != NodeInput(left, right)
    ensures p >= |shares| ==> forall i :: 0 <= i < 32 ==> LeafAt(h, shares, p)[i] == Elem(0)
  {
    assert LeafInput(s)[0] != NodeInput(left, right)[0];
  }
}
