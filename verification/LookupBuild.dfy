/**
 * The lookup-map subtree build: the combines of a complete tree over a
 * chunk's leaves are computed level by level in batches and stored by key,
 * and the unchanged tree builder then runs on a hash type whose combine
 * looks there first.
 */
module LookupBuild {
  import opened Prelude
  import opened SinsemillaMessage
  import opened Sinsemilla
  import opened BatchSinsemilla

  type Table = map<seq<nat>, seq<nat>>

  /** One level byte, then both children's 32 bytes. */
  function CombineKey(d: Domain, level: nat, a: nat, b: nat): (r: seq<nat>)
    ensures |r| == 65
  {
    [level] + Encode(d, a) + Encode(d, b)
  }

  /** A key stands for one level and one pair of elements only. */
  lemma KeyInjective(d: Domain, l1: nat, a1: nat, b1: nat, l2: nat, a2: nat, b2: nat)
    requires d.Valid() && a1 < d.p && b1 < d.p && a2 < d.p && b2 < d.p
    requires CombineKey(d, l1, a1, b1) == CombineKey(d, l2, a2, b2)
    ensures l1 == l2 && a1 == a2 && b1 == b2
  {
    hide Encode, Domain.Valid;
    var k1, k2 := CombineKey(d, l1, a1, b1), CombineKey(d, l2, a2, b2);
    assert k1[0] == l1 && k2[0] == l2;
    assert k1[1..33] == Encode(d, a1) && k2[1..33] == Encode(d, a2);
    assert k1[33..] == Encode(d, b1) && k2[33..] == Encode(d, b2);
    EncodingRoundTrip(d, a1, Encode(d, a1));
    EncodingRoundTrip(d, a2, Encode(d, a2));
    EncodingRoundTrip(d, b1, Encode(d, b1));
    EncodingRoundTrip(d, b2, Encode(d, b2));
  }

  /** Every entry that some triple's key finds is that triple's combine. */
  ghost predicate Sound(d: Domain, t: Table)
    requires d.Valid()
  {
    forall level: nat, a: nat, b: nat :: a < d.p && b < d.p && CombineKey(d, level, a, b) in t ==>
      t[CombineKey(d, level, a, b)] == Encode(d, Combine(d, level, a, b))
  }

  /** A hash whose combine consults the installed table. */
  datatype LookupHash = LookupHash(node: nat)

  /** The element that bytes encode, or the scalar combine where they encode none. */
  function ReadNode(d: Domain, bytes: seq<nat>, level: nat, a: nat, b: nat): (r: nat)
    requires d.Valid()
  {
    if Canonical(d, bytes) then FromBytes(bytes) else Combine(d, level, a, b)
  }

  function LookupCombine(d: Domain, t: Option<Table>, level: nat, a: LookupHash, b: LookupHash): (r: LookupHash)
    requires d.Valid()
  {
    var key := CombineKey(d, level, a.node, b.node);
    if t.Some? && key in t.value
    then LookupHash(ReadNode(d, t.value[key], level, a.node, b.node))
    else LookupHash(Combine(d, level, a.node, b.node))
  }

  /** The table is transparent: the looked-up combine is the plain combine. */
  lemma LookupTransparent(d: Domain, t: Option<Table>, level: nat, a: nat, b: nat)
    requires d.Valid() && a < d.p && b < d.p
    requires t.Some? ==> Sound(d, t.value)
    ensures LookupCombine(d, t, level, LookupHash(a), LookupHash(b)) == LookupHash(Combine(d, level, a, b))
  {
    hide Encode, Combine, Domain.Valid, CombineKey;
    var e := Combine(d, level, a, b);
    EncodingRoundTrip(d, e, Encode(d, e));
  }

  /** The root of an empty subtree: the uncommitted leaf 2, combined with itself. */
  function EmptyRoot(d: Domain, level: nat): (r: nat)
    requires d.Valid()
    ensures r < d.p
  {
    if level == 0 then 2 else Combine(d, level - 1, EmptyRoot(d, level - 1), EmptyRoot(d, level - 1))
  }

  ghost predicate AreNodes(d: Domain, nodes: seq<nat>) {
    forall i :: 0 <= i < |nodes| ==> nodes[i] < d.p
  }

  /** A level padded to even length with the empty root of that level. */
  function Padded(d: Domain, level: nat, nodes: seq<nat>): (r: seq<nat>)
    requires d.Valid()
  {
    if |nodes| % 2 == 1 then nodes + [EmptyRoot(d, level)] else nodes
  }

  lemma PaddedNodes(d: Domain, level: nat, nodes: seq<nat>)
    requires d.Valid() && AreNodes(d, nodes)
    ensures |Padded(d, level, nodes)| % 2 == 0 && AreNodes(d, Padded(d, level, nodes))
  {
    hide Domain.Valid, EmptyRoot;
  }

  /** The parents of a padded level. */
  function Parents(d: Domain, level: nat, nodes: seq<nat>): (r: seq<nat>)
    requires d.Valid()
    ensures |r| == |nodes| / 2 && AreNodes(d, r)
  {
    seq(|nodes| / 2, i requires 0 <= i < |nodes| / 2 => Combine(d, level, nodes[2 * i], nodes[2 * i + 1]))
  }

  /** The keys of the pairs of a padded level. */
  function LevelKeys(d: Domain, level: nat, nodes: seq<nat>): set<seq<nat>> {
    set i | 0 <= i < |nodes| / 2 :: CombineKey(d, level, nodes[2 * i], nodes[2 * i + 1])
  }

  /** The keys of every pair of the complete tree above these nodes. */
  ghost function TreeKeys(d: Domain, level: nat, nodes: seq<nat>): set<seq<nat>>
    requires d.Valid()
    decreases |nodes|
  {
    if |nodes| <= 1 then {}
    else
      var level0 := Padded(d, level, nodes);
      LevelKeys(d, level, level0) + TreeKeys(d, level + 1, Parents(d, level, level0))
  }

  lemma InsertKeepsSound(d: Domain, t: Table, level: nat, a: nat, b: nat)
    requires d.Valid() && Sound(d, t) && a < d.p && b < d.p
    ensures Sound(d, t[CombineKey(d, level, a, b) := Encode(d, Combine(d, level, a, b))])
  {
    hide CombineKey, Encode, Combine, Domain.Valid;
    var key := CombineKey(d, level, a, b);
    var u := t[key := Encode(d, Combine(d, level, a, b))];
    forall l2: nat, a2: nat, b2: nat | a2 < d.p && b2 < d.p && CombineKey(d, l2, a2, b2) in u
      ensures u[CombineKey(d, l2, a2, b2)] == Encode(d, Combine(d, l2, a2, b2))
    {
      if CombineKey(d, l2, a2, b2) == key {
        KeyInjective(d, l2, a2, b2, level, a, b);
      }
    }
  }

  lemma LevelKeysStep(d: Domain, level: nat, nodes: seq<nat>, i: nat)
    requires 2 * i + 1 < |nodes|
    ensures LevelKeys(d, level, nodes[..2 * i + 2])
         == LevelKeys(d, level, nodes[..2 * i]) + {CombineKey(d, level, nodes[2 * i], nodes[2 * i + 1])}
  {
    hide CombineKey;
    var all, some := nodes[..2 * i + 2], nodes[..2 * i];
    forall k | k in LevelKeys(d, level, all)
      ensures k in LevelKeys(d, level, some) + {CombineKey(d, level, nodes[2 * i], nodes[2 * i + 1])}
    {
      var j :| 0 <= j < |all| / 2 && k == CombineKey(d, level, all[2 * j], all[2 * j + 1]);
      if j < i {
        assert 2 * j + 1 < |some| && some[2 * j] == all[2 * j] && some[2 * j + 1] == all[2 * j + 1];
        assert k == CombineKey(d, level, some[2 * j], some[2 * j + 1]);
      } else {
        assert j == i;
      }
    }
    forall k | k in LevelKeys(d, level, some) ensures k in LevelKeys(d, level, all) {
      var j :| 0 <= j < |some| / 2 && k == CombineKey(d, level, some[2 * j], some[2 * j + 1]);
      assert some[2 * j] == all[2 * j] && some[2 * j + 1] == all[2 * j + 1];
      assert k == CombineKey(d, level, all[2 * j], all[2 * j + 1]);
    }
    assert CombineKey(d, level, all[2 * i], all[2 * i + 1]) in LevelKeys(d, level, all);
  }

  /** The encoded parents of one padded level, in one batch. */
  method LevelParents(d: Domain, level: nat, nodes: seq<nat>) returns (parents: seq<seq<nat>>)
    requires d.Valid() && AreNodes(d, nodes) && |nodes| % 2 == 0
    ensures |parents| == |nodes| / 2
    ensures forall i :: 0 <= i < |parents| ==>
              parents[i] == Encode(d, Combine(d, level, nodes[2 * i], nodes[2 * i + 1]))
  {
    hide Encode, Combine, Domain.Valid, IsNode, FromBytes;
    var pairs := |nodes| / 2;
    var lefts := seq(pairs, i requires 0 <= i < pairs => Encode(d, nodes[2 * i]));
    var rights := seq(pairs, i requires 0 <= i < pairs => Encode(d, nodes[2 * i + 1]));
    forall i | 0 <= i < pairs
      ensures Canonical(d, lefts[i]) && FromBytes(lefts[i]) == nodes[2 * i]
      ensures Canonical(d, rights[i]) && FromBytes(rights[i]) == nodes[2 * i + 1]
    {
      EncodingRoundTrip(d, nodes[2 * i], lefts[i]);
      EncodingRoundTrip(d, nodes[2 * i + 1], rights[i]);
    }
    parents := OrchardCombineBatch(d, seq(pairs, _ => level), lefts, rights);
  }

  /** Pairs up one level: records each pair's parent under its key and collects the parents. */
  method RecordLevel(d: Domain, t: Table, level: nat, nodes: seq<nat>) returns (u: Table, next: seq<nat>)
    requires d.Valid() && Sound(d, t) && AreNodes(d, nodes) && |nodes| % 2 == 0
    ensures Sound(d, u) && u.Keys == t.Keys + LevelKeys(d, level, nodes)
    ensures next == Parents(d, level, nodes)
  {
    hide CombineKey, Encode, Combine, Domain.Valid, Sound, LevelKeys, IsNode, FromBytes;
    var parents := LevelParents(d, level, nodes);
    u, next := t, [];
    NoKeys(d, level);
    for i := 0 to |parents|
      invariant Sound(d, u) && u.Keys == t.Keys + LevelKeys(d, level, nodes[..2 * i])
      invariant |next| == i && forall k :: 0 <= k < i ==> next[k] == Combine(d, level, nodes[2 * k], nodes[2 * k + 1])
    {
      var a, b := nodes[2 * i], nodes[2 * i + 1];
      InsertKeepsSound(d, u, level, a, b);
      LevelKeysStep(d, level, nodes, i);
      EncodingRoundTrip(d, Combine(d, level, a, b), parents[i]);
      u := u[CombineKey(d, level, a, b) := parents[i]];
      next := next + [ReadNode(d, parents[i], level, a, b)];
    }
    assert nodes[..2 * |parents|] == nodes;
  }

  lemma NoKeys(d: Domain, level: nat)
    ensures LevelKeys(d, level, []) == {}
  {
  }

  lemma TreeKeysStep(d: Domain, level: nat, nodes: seq<nat>)
    requires d.Valid() && |nodes| > 1
    ensures var padded := Padded(d, level, nodes);
            && TreeKeys(d, level, nodes)
               == LevelKeys(d, level, padded) + TreeKeys(d, level + 1, Parents(d, level, padded))
            && |Parents(d, level, padded)| < |nodes|
            && forall k: nat {:trigger Pow2(k)} ::
                 |nodes| <= Pow2(k) ==> k > 0 && |Parents(d, level, padded)| <= Pow2(k - 1)
  {
  }

  /** The combines of the complete tree over the leaves: exactly its pairs, each with its combine. */
  method PrecomputeShardMap(d: Domain, leaves: seq<nat>) returns (t: Table)
    requires d.Valid() && AreNodes(d, leaves)
    ensures Sound(d, t) && t.Keys == TreeKeys(d, 0, leaves)
  {
    hide CombineKey, Combine, Domain.Valid, LevelKeys, AreNodes, TreeKeys, Parents, Padded, Pow2;
    t := map[];
    if |leaves| <= 1 {
      NoTreeKeys(d, 0, leaves);
      return;
    }
    var level := leaves;
    var lvl: nat := 0;
    while |level| > 1
      invariant AreNodes(d, level) && Sound(d, t)
      invariant t.Keys + TreeKeys(d, lvl, level) == TreeKeys(d, 0, leaves)
      invariant |leaves| <= Pow2(255) ==> lvl <= 255 && |level| <= Pow2(255 - lvl)
      decreases |level|
    {
      TreeKeysStep(d, lvl, level);
      // The source counts levels in a byte.
      assert |leaves| <= Pow2(255) ==> lvl < 255;
      var nodes := Padded(d, lvl, level);
      PaddedNodes(d, lvl, level);
      t, level := RecordLevel(d, t, lvl, nodes);
      lvl := lvl + 1;
    }
    NoTreeKeys(d, lvl, level);
  }

  lemma NoTreeKeys(d: Domain, level: nat, nodes: seq<nat>)
    requires d.Valid() && |nodes| <= 1
    ensures TreeKeys(d, level, nodes) == {}
  {
  }

  // ── The table against the tree it is for ─────────────────────────────────

  /** Node i of a level of the complete tree over the leaves, with uncommitted leaves to their
      right. */
  function TreeNode(d: Domain, leaves: seq<nat>, level: nat, i: nat): nat
    requires d.Valid()
  {
    if level == 0 then (if i < |leaves| then leaves[i] else 2)
    else
      Combine(d, level - 1, TreeNode(d, leaves, level - 1, 2 * i), TreeNode(d, leaves, level - 1, 2 * i + 1))
  }

  /** How many nodes of a level stand above some leaf. */
  function Width(leaves: nat, level: nat): nat {
    if level == 0 then leaves else (Width(leaves, level - 1) + 1) / 2
  }

  lemma {:induction false} EmptyBeyond(d: Domain, leaves: seq<nat>, level: nat, i: nat)
    requires d.Valid() && i >= Width(|leaves|, level)
    ensures TreeNode(d, leaves, level, i) == EmptyRoot(d, level)
  {
    hide Combine, Domain.Valid;
    if level > 0 {
      EmptyBeyond(d, leaves, level - 1, 2 * i);
      EmptyBeyond(d, leaves, level - 1, 2 * i + 1);
    }
  }

  /** These are the level's nodes above some leaf. */
  ghost predicate IsLevel(d: Domain, leaves: seq<nat>, level: nat, nodes: seq<nat>)
    requires d.Valid()
  {
    |nodes| == Width(|leaves|, level) && forall i :: 0 <= i < |nodes| ==> nodes[i] == TreeNode(d, leaves, level, i)
  }

  lemma PaddedIsTree(d: Domain, leaves: seq<nat>, level: nat, nodes: seq<nat>)
    requires d.Valid() && IsLevel(d, leaves, level, nodes)
    ensures var padded := Padded(d, level, nodes);
            && |padded| == 2 * Width(|leaves|, level + 1)
            && (forall i :: 0 <= i < |padded| ==> padded[i] == TreeNode(d, leaves, level, i))
            && IsLevel(d, leaves, level + 1, Parents(d, level, padded))
  {
    hide Combine, Domain.Valid, EmptyRoot;
    var padded := Padded(d, level, nodes);
    EmptyBeyond(d, leaves, level, |nodes|);
    var parents := Parents(d, level, padded);
    forall i | 0 <= i < |parents| ensures parents[i] == TreeNode(d, leaves, level + 1, i) {
      assert padded[2 * i] == TreeNode(d, leaves, level, 2 * i);
      assert padded[2 * i + 1] == TreeNode(d, leaves, level, 2 * i + 1);
    }
  }

  /** Nodes 2i and 2i + 1 of a level with more than one node, not both beyond the leaves. */
  ghost predicate IsPair(d: Domain, leaves: seq<nat>, level: nat, i: nat, key: seq<nat>)
    requires d.Valid()
  {
    && 1 < Width(|leaves|, level) && 2 * i < Width(|leaves|, level)
    && key == CombineKey(d, level, TreeNode(d, leaves, level, 2 * i), TreeNode(d, leaves, level, 2 * i + 1))
  }

  ghost predicate InTree(d: Domain, leaves: seq<nat>, from: nat, key: seq<nat>)
    requires d.Valid()
  {
    exists level: nat, i: nat :: from <= level && IsPair(d, leaves, level, i, key)
  }

  lemma {:induction false} WidthShrinks(leaves: nat, from: nat, level: nat)
    requires from <= level && Width(leaves, from) <= 1
    ensures Width(leaves, level) <= 1
  {
    if from < level {
      WidthShrinks(leaves, from, level - 1);
    }
  }

  lemma KeysOfLevel(d: Domain, leaves: seq<nat>, level: nat, padded: seq<nat>, key: seq<nat>)
    requires d.Valid() && 1 < Width(|leaves|, level) && |padded| == 2 * Width(|leaves|, level + 1)
    requires forall i :: 0 <= i < |padded| ==> padded[i] == TreeNode(d, leaves, level, i)
    ensures key in LevelKeys(d, level, padded) <==> exists i: nat :: IsPair(d, leaves, level, i, key)
  {
    hide CombineKey, TreeNode, Domain.Valid;
    if key in LevelKeys(d, level, padded) {
      var i :| 0 <= i < |padded| / 2 && key == CombineKey(d, level, padded[2 * i], padded[2 * i + 1]);
      assert IsPair(d, leaves, level, i, key);
    }
    if i: nat :| IsPair(d, leaves, level, i, key) {
      assert key == CombineKey(d, level, padded[2 * i], padded[2 * i + 1]);
    }
  }

  /** The keys collected level by level are those of the tree's pairs from that level up. */
  lemma {:induction false} KeysAreTree(d: Domain, leaves: seq<nat>, level: nat, nodes: seq<nat>, key: seq<nat>)
    requires d.Valid() && IsLevel(d, leaves, level, nodes)
    ensures key in TreeKeys(d, level, nodes) <==> InTree(d, leaves, level, key)
    decreases |nodes|
  {
    hide CombineKey, TreeNode, Domain.Valid, LevelKeys, Padded, Parents, TreeKeys, IsPair;
    if |nodes| <= 1 {
      NoTreeKeys(d, level, nodes);
      forall l: nat, i: nat | level <= l ensures !IsPair(d, leaves, l, i, key) {
        WidthShrinks(|leaves|, level, l);
        NarrowHasNoPair(d, leaves, l, i, key);
      }
    } else {
      var padded := Padded(d, level, nodes);
      TreeKeysStep(d, level, nodes);
      PaddedIsTree(d, leaves, level, nodes);
      KeysOfLevel(d, leaves, level, padded, key);
      KeysAreTree(d, leaves, level + 1, Parents(d, level, padded), key);
      if i: nat :| IsPair(d, leaves, level, i, key) {
        assert level <= level && IsPair(d, leaves, level, i, key);
      }
    }
  }

  lemma NarrowHasNoPair(d: Domain, leaves: seq<nat>, level: nat, i: nat, key: seq<nat>)
    requires d.Valid() && Width(|leaves|, level) <= 1
    ensures !IsPair(d, leaves, level, i, key)
  {
  }

  /** The table of a chunk holds exactly the pairs of the complete tree over its leaves that
      stand above some leaf, below the root; so every combine such a tree needs is there. */
  lemma TableIsTree(d: Domain, leaves: seq<nat>, key: seq<nat>)
    requires d.Valid()
    ensures key in TreeKeys(d, 0, leaves) <==> InTree(d, leaves, 0, key)
  {
    hide TreeKeys, InTree, Domain.Valid;
    KeysAreTree(d, leaves, 0, leaves, key);
  }

  /** A hash the tree builder can form: given leaves, empty roots and combines of these. */
  datatype HashTerm = Given(hash: nat) | Empty(level: nat) | Joined(at: nat, left: HashTerm, right: HashTerm)

  /** A prunable tree over hashes of type H; a leaf carries its retention flags. */
  datatype Tree<H> = Nil | Leaf(value: H, flags: nat) | Parent(ann: Option<H>, left: Tree<H>, right: Tree<H>)

  ghost predicate TermOk(d: Domain, h: HashTerm) {
    match h
    case Given(e) => e < d.p
    case Empty(_) => true
    case Joined(_, l, r) => TermOk(d, l) && TermOk(d, r)
  }

  ghost predicate TreeOk(d: Domain, t: Tree<HashTerm>) {
    match t
    case Nil => true
    case Leaf(h, _) => TermOk(d, h)
    case Parent(ann, l, r) => (ann.Some? ==> TermOk(d, ann.value)) && TreeOk(d, l) && TreeOk(d, r)
  }

  /** The hash as the plain hash type computes it. */
  function Plain(d: Domain, h: HashTerm): nat
    requires d.Valid()
  {
    match h
    case Given(e) => e
    case Empty(level) => EmptyRoot(d, level)
    case Joined(level, l, r) => Combine(d, level, Plain(d, l), Plain(d, r))
  }

  /** The hash as the wrapping hash type computes it under table t. */
  function Looked(d: Domain, t: Option<Table>, h: HashTerm): LookupHash
    requires d.Valid()
  {
    match h
    case Given(e) => LookupHash(e)
    case Empty(level) => LookupHash(EmptyRoot(d, level))
    case Joined(level, l, r) => LookupCombine(d, t, level, Looked(d, t, l), Looked(d, t, r))
  }

  function BuildPlain(d: Domain, t: Tree<HashTerm>): Tree<nat>
    requires d.Valid()
  {
    match t
    case Nil => Nil
    case Leaf(h, flags) => Leaf(Plain(d, h), flags)
    case Parent(ann, l, r) =>
      Parent(if ann.Some? then Some(Plain(d, ann.value)) else None, BuildPlain(d, l), BuildPlain(d, r))
  }

  function BuildLooked(d: Domain, table: Option<Table>, t: Tree<HashTerm>): Tree<LookupHash>
    requires d.Valid()
  {
    match t
    case Nil => Nil
    case Leaf(h, flags) => Leaf(Looked(d, table, h), flags)
    case Parent(ann, l, r) =>
      Parent(if ann.Some? then Some(Looked(d, table, ann.value)) else None,
             BuildLooked(d, table, l), BuildLooked(d, table, r))
  }

  /** Unwraps every hash of a tree. */
  function ConvertTree(t: Tree<LookupHash>): Tree<nat> {
    match t
    case Nil => Nil
    case Leaf(h, flags) => Leaf(h.node, flags)
    case Parent(ann, l, r) =>
      Parent(if ann.Some? then Some(ann.value.node) else None, ConvertTree(l), ConvertTree(r))
  }

  lemma {:induction false} TermTransparent(d: Domain, t: Option<Table>, h: HashTerm)
    requires d.Valid() && TermOk(d, h) && (t.Some? ==> Sound(d, t.value))
    ensures Plain(d, h) < d.p && Looked(d, t, h) == LookupHash(Plain(d, h))
  {
    match h
    case Given(_) =>
    case Empty(_) =>
    case Joined(level, l, r) =>
      TermTransparent(d, t, l);
      TermTransparent(d, t, r);
      LookupTransparent(d, t, level, Plain(d, l), Plain(d, r));
  }

  /** A tree built through any sound table, then converted, is the tree built directly. */
  lemma {:induction false} BuildTransparent(d: Domain, table: Option<Table>, t: Tree<HashTerm>)
    requires d.Valid() && TreeOk(d, t) && (table.Some? ==> Sound(d, table.value))
    ensures ConvertTree(BuildLooked(d, table, t)) == BuildPlain(d, t)
  {
    hide Sound, Looked, Plain, TermOk;
    match t
    case Nil =>
    case Leaf(h, _) =>
      TermTransparent(d, table, h);
    case Parent(ann, l, r) =>
      if ann.Some? {
        TermTransparent(d, table, ann.value);
      }
      BuildTransparent(d, table, l);
      BuildTransparent(d, table, r);
  }

  const BUILD_CHUNK_SIZE: nat := 1024

  /** A commitment and its retention flags. */
  datatype Commitment = Commitment(hash: nat, flags: nat)

  ghost predicate AreCommitments(d: Domain, cs: seq<Commitment>) {
    forall i :: 0 <= i < |cs| ==> cs[i].hash < d.p
  }

  /** A tree at its address, with the checkpoints found among its leaves. */
  datatype Located<H> = Located(level: nat, index: nat, root: Tree<H>, checkpoints: map<nat, nat>)

  function Depth<H>(t: Tree<H>): nat {
    if t.Parent? then 1 + Max(Depth(t.left), Depth(t.right)) else 0
  }

  /** A tree may stand at an address of at least its depth; putting it elsewhere fails. */
  function FromParts(level: nat, index: nat, root: Tree<nat>, checkpoints: map<nat, nat>): (r: Option<Located<nat>>)
  {
    if Depth(root) <= level then Some(Located(level, index, root, checkpoints)) else None
  }

  lemma {:induction false} PlainDepth(d: Domain, t: Tree<HashTerm>)
    requires d.Valid()
    ensures Depth(BuildPlain(d, t)) == Depth(t)
  {
    hide Domain.Valid, Plain;
    if t.Parent? {
      PlainDepth(d, t.left);
      PlainDepth(d, t.right);
    }
  }

  /**
   * The tree builder: from a start position and leaves it decides the address
   * and the shape of the tree, its checkpoints, and which hash terms stand in
   * it, knowing hashes only as given leaves, empty roots and combines.
   */
  type Builder = (nat, seq<Commitment>) -> Option<Located<HashTerm>>

  /** Its trees fit their addresses and hold hashes of the leaves it was given. */
  ghost predicate BuilderOk(d: Domain, build: Builder) {
    forall start: nat, cs: seq<Commitment> ::
      AreCommitments(d, cs) && build(start, cs).Some? ==>
        TreeOk(d, build(start, cs).value.root) && Depth(build(start, cs).value.root) <= build(start, cs).value.level
  }

  /** What a chunk gives with the plain hash type. */
  function ChunkPlain(d: Domain, build: Builder, start: nat, chunk: seq<Commitment>): seq<Located<nat>>
    requires d.Valid()
  {
    var b := build(start, chunk);
    if b.None? then [] else [Located(b.value.level, b.value.index, BuildPlain(d, b.value.root), b.value.checkpoints)]
  }

  /** The subtrees built chunk by chunk with the plain hash type. */
  function SubtreesPlain(d: Domain, build: Builder, start: nat, cs: seq<Commitment>): seq<Located<nat>>
    requires d.Valid()
    decreases |cs|
  {
    if cs == [] then []
    else
      var n := Min(BUILD_CHUNK_SIZE, |cs|);
      ChunkPlain(d, build, start, cs[..n]) + SubtreesPlain(d, build, start + n, cs[n..])
  }

  /** Chunks are built at their own positions: cutting after whole chunks cuts the result,
      and what fits one chunk is built as one. */
  lemma {:induction false} SubtreesSplit(d: Domain, build: Builder, start: nat, cs: seq<Commitment>, chunks: nat)
    requires d.Valid() && chunks * 1024 <= |cs|
    ensures var k := chunks * 1024;
            SubtreesPlain(d, build, start, cs)
            == SubtreesPlain(d, build, start, cs[..k]) + SubtreesPlain(d, build, start + k, cs[k..])
    ensures 0 < |cs| <= 1024 ==> SubtreesPlain(d, build, start, cs) == ChunkPlain(d, build, start, cs)
    decreases |cs|
  {
    hide Domain.Valid, ChunkPlain;
    var n, k := BUILD_CHUNK_SIZE, chunks * BUILD_CHUNK_SIZE;
    if chunks == 0 {
      assert cs[..0] == [] && cs[0..] == cs;
    } else {
      assert k - n == (chunks - 1) * n;
      SubtreesSplit(d, build, start + n, cs[n..], chunks - 1);
      assert cs[n..][..k - n] == cs[..k][n..] && cs[n..][k - n..] == cs[k..] && cs[..k][..n] == cs[..n];
    }
    if 0 < |cs| <= n {
      assert cs[..|cs|] == cs && cs[|cs|..] == [];
    }
  }

  /** A builder thread: the table its combines consult while a chunk is built. */
  class LookupThread {
    var precomp: Option<Table>

    constructor ()
      ensures precomp == None
    {
      precomp := None;
    }

    /** Builds one chunk through its own table, and takes the table away again. The converted
        tree always fits the address of the one it came from. */
    method BuildChunk(d: Domain, build: Builder, start: nat, chunk: seq<Commitment>) returns (out: seq<Located<nat>>)
      requires d.Valid() && AreCommitments(d, chunk) && BuilderOk(d, build)
      modifies this
      ensures precomp == None
      ensures out == ChunkPlain(d, build, start, chunk)
    {
      hide Domain.Valid, Sound, BuildPlain, BuildLooked, TreeKeys, ConvertTree, Depth;
      var leaves := seq(|chunk|, i requires 0 <= i < |chunk| => chunk[i].hash);
      var table := PrecomputeShardMap(d, leaves);
      precomp := Some(table);
      var built := build(start, chunk);
      var looked := if built.Some? then Some(BuildLooked(d, precomp, built.value.root)) else None;
      precomp := None;
      out := [];
      if looked.Some? {
        BuildTransparent(d, Some(table), built.value.root);
        PlainDepth(d, built.value.root);
        var b := built.value;
        var converted := FromParts(b.level, b.index, ConvertTree(looked.value), b.checkpoints);
        assert converted.Some?;
        out := [converted.value];
      }
    }

    /** The lookup build gives the same subtrees, addresses and checkpoints as the plain one. */
    method BuildSubtrees(d: Domain, build: Builder, start: nat, cs: seq<Commitment>) returns (out: seq<Located<nat>>)
      requires d.Valid() && AreCommitments(d, cs) && BuilderOk(d, build)
      modifies this
      ensures out == SubtreesPlain(d, build, start, cs)
      ensures cs != [] ==> precomp == None
    {
      hide Domain.Valid, BuilderOk, ChunkPlain;
      out := [];
      var rest := cs;
      var at: nat := start;
      while rest != []
        invariant AreCommitments(d, rest)
        invariant out + SubtreesPlain(d, build, at, rest) == SubtreesPlain(d, build, start, cs)
        invariant rest != cs ==> precomp == None
        decreases |rest|
      {
        var n := Min(BUILD_CHUNK_SIZE, |rest|);
        var trees := BuildChunk(d, build, at, rest[..n]);
        assert out + trees + SubtreesPlain(d, build, at + n, rest[n..])
            == out + (trees + SubtreesPlain(d, build, at + n, rest[n..]));
        out, rest, at := out + trees, rest[n..], at + n;
      }
    }
  }
}
