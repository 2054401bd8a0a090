/** External anchoring of chain heads: netstring-encoded leaves, a Merkle tree
    built level by level, and inclusion proofs. The hash function is a parameter
    `h`; nothing is assumed about it. */
module Anchor {
  import opened Wrappers
  import opened Ids
  import opened Decimal
  import opened Sorting

  type Hash = seq<Byte> -> Digest

  /** The last voucher of one company's chain: what a root vouches for. */
  datatype AnchorLeaf = AnchorLeaf(companyId: Uuid, lastSeq: int, lastHash: Digest)

  /** Where a proof step's digest goes: before or after the digest folded so far. */
  datatype Side = Left | Right

  datatype ProofStep = ProofStep(side: Side, sibling: Digest)

  // ---------- Leaf content: netstring fields ----------

  const VERSION_FIELD := "regnmed-anchor-v1"
  const COLON: Byte := 58
  const SEMICOLON: Byte := 59

  predicate IsAscii(s: string) {
    forall i | 0 <= i < |s| :: s[i] as int < 128
  }

  function AsBytes(s: string): (b: seq<Byte>)
    requires IsAscii(s)
    ensures |b| == |s|
  {
    seq(|s|, i requires 0 <= i < |s| => s[i] as int)
  }

  /** The bytes one field adds to the buffer: `<length>:<bytes>;`. */
  function Field(bytes: seq<Byte>): seq<Byte> {
    AsBytes(ToString(|bytes|)) + [COLON] + bytes + [SEMICOLON]
  }

  function Fields(fields: seq<seq<Byte>>): seq<Byte> {
    if fields == [] then [] else Field(fields[0]) + Fields(fields[1..])
  }

  function LeafFields(leaf: AnchorLeaf): seq<seq<Byte>> {
    [AsBytes(VERSION_FIELD), leaf.companyId, AsBytes(SignedToString(leaf.lastSeq)), leaf.lastHash]
  }

  function LeafPreimage(leaf: AnchorLeaf): seq<Byte> {
    [0] + Fields(LeafFields(leaf))
  }

  function NodePreimage(left: Digest, right: Digest): seq<Byte> {
    [1] + left + right
  }

  method PushField(buf: seq<Byte>, bytes: seq<Byte>) returns (pushed: seq<Byte>)
    ensures pushed == buf + Field(bytes)
    ensures pushed == buf + (AsBytes(ToString(|bytes|)) + [58] + bytes + [59])
  {
    pushed := buf + AsBytes(ToString(|bytes|));
    pushed := pushed + [COLON];
    pushed := pushed + bytes;
    pushed := pushed + [SEMICOLON];
  }

  lemma {:induction false} FieldsAppend(fields: seq<seq<Byte>>, bytes: seq<Byte>)
    ensures Fields(fields + [bytes]) == Fields(fields) + Field(bytes)
  {
    hide Field;
    if fields == [] {
      assert fields + [bytes] == [bytes];
      OneField(bytes);
      assert [] + Field(bytes) == Field(bytes);
    } else {
      FieldsAppend(fields[1..], bytes);
      assert (fields + [bytes])[1..] == fields[1..] + [bytes] && (fields + [bytes])[0] == fields[0];
      Regroup(Field(fields[0]), Fields(fields[1..]), Field(bytes));
    }
  }

  lemma OneField(bytes: seq<Byte>)
    ensures Fields([bytes]) == Field(bytes)
  {
    hide Field;
    assert [bytes][1..] == [];
    assert Field(bytes) + [] == Field(bytes);
  }

  lemma EmptyFields()
    ensures Fields([]) == []
  {
  }

  method LeafBuffer(version: seq<Byte>, companyId: seq<Byte>, lastSeq: seq<Byte>, lastHash: seq<Byte>)
    returns (buf: seq<Byte>)
    ensures buf == [0] + Fields([version, companyId, lastSeq, lastHash])
  {
    hide Field, Fields;
    EmptyFields();
    buf := [0];
    buf := PushField(buf, version);
    FieldsAppend([], version);
    buf := PushField(buf, companyId);
    FieldsAppend([version], companyId);
    buf := PushField(buf, lastSeq);
    FieldsAppend([version, companyId], lastSeq);
    buf := PushField(buf, lastHash);
    FieldsAppend([version, companyId, lastSeq], lastHash);
    assert [] + [version] == [version];
    assert [version] + [companyId] == [version, companyId];
    assert [version, companyId] + [lastSeq] == [version, companyId, lastSeq];
    assert [version, companyId, lastSeq] + [lastHash] == [version, companyId, lastSeq, lastHash];
  }

  method LeafHash(h: Hash, leaf: AnchorLeaf) returns (digest: Digest)
    ensures digest == h(LeafPreimage(leaf))
  {
    var buf := LeafBuffer(AsBytes(VERSION_FIELD), leaf.companyId,
                          AsBytes(SignedToString(leaf.lastSeq)), leaf.lastHash);
    digest := h(buf);
  }

  /** The digest of a node: the byte 1, the left child, the right child. */
  method NodeHash(h: Hash, left: Digest, right: Digest) returns (digest: Digest)
    ensures digest == h([1] + left + right)
  {
    var buf: seq<Byte> := [1];
    buf := buf + left;
    buf := buf + right;
    digest := h(buf);
  }

  /** A field can be read off the front of any byte string it starts in only one way. */
  lemma FieldIsPrefixFree(a: seq<Byte>, x: seq<Byte>, b: seq<Byte>, y: seq<Byte>)
    requires Field(a) + x == Field(b) + y
    ensures a == b && x == y
  {
    var da, db := AsBytes(ToString(|a|)), AsBytes(ToString(|b|));
    var s, t := Field(a) + x, Field(b) + y;
    assert s[|da|] == COLON && t[|db|] == COLON;
    assert forall i | 0 <= i < |da| :: s[i] == da[i] != COLON;
    assert forall i | 0 <= i < |db| :: t[i] == db[i] != COLON;
    assert |da| == |db|;
    assert da == s[..|da|] == t[..|db|] == db;
    assert ToString(|a|) == ToString(|b|) by {
      forall i | 0 <= i < |da| ensures ToString(|a|)[i] == ToString(|b|)[i] {
        assert da[i] == db[i];
      }
    }
    ToStringInjective(|a|, |b|);
    assert a == s[|da| + 1..][..|a|] == t[|da| + 1..][..|b|] == b;
    assert x == s[|Field(a)|..] == t[|Field(b)|..] == y;
  }

  /** No two lists of fields share an encoding. */
  lemma {:induction false} FieldsInjective(fs: seq<seq<Byte>>, gs: seq<seq<Byte>>)
    requires Fields(fs) == Fields(gs)
    ensures fs == gs
  {
    if fs != [] && gs != [] {
      FieldIsPrefixFree(fs[0], Fields(fs[1..]), gs[0], Fields(gs[1..]));
      FieldsInjective(fs[1..], gs[1..]);
      assert fs == [fs[0]] + fs[1..] && gs == [gs[0]] + gs[1..];
    }
  }

  lemma LeafPreimageInjective(a: AnchorLeaf, b: AnchorLeaf)
    requires LeafPreimage(a) == LeafPreimage(b)
    ensures a == b
  {
    assert Fields(LeafFields(a)) == LeafPreimage(a)[1..] == LeafPreimage(b)[1..] == Fields(LeafFields(b));
    FieldsInjective(LeafFields(a), LeafFields(b));
    assert LeafFields(a)[1] == LeafFields(b)[1] && LeafFields(a)[3] == LeafFields(b)[3];
    var s, t := SignedToString(a.lastSeq), SignedToString(b.lastSeq);
    assert AsBytes(s) == LeafFields(a)[2] == LeafFields(b)[2] == AsBytes(t);
    assert s == t by {
      forall i | 0 <= i < |s| ensures s[i] == t[i] {
        assert AsBytes(s)[i] == AsBytes(t)[i];
      }
    }
    SignedToStringInjective(a.lastSeq, b.lastSeq);
  }

  lemma NodePreimageInjective(l: Digest, r: Digest, l': Digest, r': Digest)
    requires NodePreimage(l, r) == NodePreimage(l', r')
    ensures l == l' && r == r'
  {
    var s, t := NodePreimage(l, r), NodePreimage(l', r');
    assert l == s[1..33] == t[1..33] == l';
    assert r == s[33..] == t[33..] == r';
  }

  /** The prefixes 0x00 and 0x01 keep leaves and nodes apart. */
  lemma LeafIsNeverNode(leaf: AnchorLeaf, l: Digest, r: Digest)
    ensures LeafPreimage(leaf) != NodePreimage(l, r)
  {
    assert LeafPreimage(leaf)[0] == 0 && NodePreimage(l, r)[0] == 1;
  }

  // ---------- The tree hash of RFC 6962, section 2.1 ----------

  ghost predicate IsPowerOfTwo(k: nat) {
    k == 1 || (k > 1 && k % 2 == 0 && IsPowerOfTwo(k / 2))
  }

  /** The largest power of two smaller than `n`. */
  function SplitPoint(n: nat): (k: nat)
    requires n >= 2
    ensures 1 <= k < n <= 2 * k && IsPowerOfTwo(k)
  {
    if n == 2 then 1
    else
      var k := SplitPoint((n + 1) / 2);
      assert (2 * k) / 2 == k && (2 * k) % 2 == 0;
      2 * k
  }

  /** MTH of RFC 6962 over leaf digests. */
  function TreeHash(h: Hash, digests: seq<Digest>): Digest
    requires digests != []
    decreases |digests|
  {
    if |digests| == 1 then digests[0]
    else
      var k := SplitPoint(|digests|);
      h(NodePreimage(TreeHash(h, digests[..k]), TreeHash(h, digests[k..])))
  }

  /** PATH of RFC 6962, section 2.1.1, with the side of every sibling. */
  function AuditPath(h: Hash, digests: seq<Digest>, m: nat): seq<ProofStep>
    requires m < |digests|
    decreases |digests|
  {
    if |digests| == 1 then []
    else
      var k := SplitPoint(|digests|);
      if m < k then AuditPath(h, digests[..k], m) + [ProofStep(Right, TreeHash(h, digests[k..]))]
      else AuditPath(h, digests[k..], m - k) + [ProofStep(Left, TreeHash(h, digests[..k]))]
  }

  // ---------- The loop: one level at a time ----------

  /** The next level: neighbours hashed pairwise, an odd last node promoted. */
  function PairUp(h: Hash, level: seq<Digest>): (next: seq<Digest>)
    ensures |next| == (|level| + 1) / 2
  {
    if |level| < 2 then level
    else [h(NodePreimage(level[0], level[1]))] + PairUp(h, level[2..])
  }

  /** What the loop pushes for the node at `index` on one level. */
  function SiblingStep(level: seq<Digest>, index: nat): seq<ProofStep>
    requires index < |level|
  {
    var sibling := if index % 2 == 0 then index + 1 else index - 1;
    if sibling < |level| then [ProofStep(if sibling < index then Left else Right, level[sibling])]
    else []
  }

  lemma {:induction false} PairUpSplits(h: Hash, level: seq<Digest>, k: nat)
    requires k % 2 == 0 && k <= |level|
    ensures PairUp(h, level) == PairUp(h, level[..k]) + PairUp(h, level[k..])
    decreases k
  {
    hide NodePreimage;
    if k == 0 {
      assert level[0..] == level;
    } else {
      var rest := level[2..];
      PairUpSplits(h, rest, k - 2);
      assert rest[..k - 2] == level[..k][2..];
      assert rest[k - 2..] == level[k..];
      Regroup([h(NodePreimage(level[0], level[1]))], PairUp(h, rest[..k - 2]), PairUp(h, level[k..]));
    }
  }

  lemma SplitPointHalves(n: nat)
    requires n > 2
    ensures SplitPoint(n) % 2 == 0 && SplitPoint(n) >= 2
    ensures SplitPoint((n + 1) / 2) == SplitPoint(n) / 2
  {
  }

  /** Both halves of a level, and both halves of the next one, are split alike. */
  lemma NextLevelHalves(h: Hash, level: seq<Digest>)
    requires |level| > 2
    ensures
      var k := SplitPoint(|level|);
      var next := PairUp(h, level);
      && k % 2 == 0 && 2 <= k && SplitPoint(|next|) == k / 2
      && next[..k / 2] == PairUp(h, level[..k]) && next[k / 2..] == PairUp(h, level[k..])
  {
    var k := SplitPoint(|level|);
    SplitPointHalves(|level|);
    PairUpSplits(h, level, k);
    assert |PairUp(h, level[..k])| == k / 2;
  }

  /** One level up, the same tree. */
  lemma {:induction false} PairUpKeepsTheTree(h: Hash, level: seq<Digest>)
    requires |level| >= 2
    ensures TreeHash(h, PairUp(h, level)) == TreeHash(h, level)
    decreases |level|
  {
    if |level| == 2 {
      assert level[..1] == [level[0]] && level[1..] == [level[1]];
      assert PairUp(h, level) == [h(NodePreimage(level[0], level[1]))];
    } else {
      var k := SplitPoint(|level|);
      NextLevelHalves(h, level);
      PairUpKeepsTheTree(h, level[..k]);
      PromotedOrPaired(h, level[k..]);
      if |level[k..]| > 1 {
        PairUpKeepsTheTree(h, level[k..]);
      }
    }
  }

  lemma PromotedOrPaired(h: Hash, level: seq<Digest>)
    ensures |level| == 1 ==> PairUp(h, level) == level
  {
  }

  /** One level up, the audit path loses exactly its first step. */
  lemma {:induction false} PairUpKeepsThePath(h: Hash, level: seq<Digest>, index: nat)
    requires |level| >= 2 && index < |level|
    ensures AuditPath(h, level, index)
         == SiblingStep(level, index) + AuditPath(h, PairUp(h, level), index / 2)
    decreases |level|, 1
  {
    if |level| == 2 {
      assert level[..1] == [level[0]] && level[1..] == [level[1]];
      assert |PairUp(h, level)| == 1;
    } else if index < SplitPoint(|level|) {
      PathInLeftHalf(h, level, index);
    } else {
      PathInRightHalf(h, level, index);
    }
  }

  /** Cutting a level at an even place separates no siblings. */
  lemma SiblingsStayTogether(level: seq<Digest>, k: nat, index: nat)
    requires k % 2 == 0 && k <= |level| && index < |level|
    ensures index < k ==> SiblingStep(level[..k], index) == SiblingStep(level, index)
    ensures k <= index ==> SiblingStep(level[k..], index - k) == SiblingStep(level, index)
  {
    SameParity(index, k);
  }

  lemma SameParity(index: nat, k: nat)
    requires k % 2 == 0
    ensures (index - k) % 2 == index % 2
  {
  }

  lemma PathUnfolds(h: Hash, level: seq<Digest>, index: nat)
    requires index < |level| && |level| > 1
    ensures
      var k := SplitPoint(|level|);
      AuditPath(h, level, index)
      == if index < k then AuditPath(h, level[..k], index) + [ProofStep(Right, TreeHash(h, level[k..]))]
         else AuditPath(h, level[k..], index - k) + [ProofStep(Left, TreeHash(h, level[..k]))]
  {
    hide TreeHash, SplitPoint;
  }

  lemma {:induction false} PathInLeftHalf(h: Hash, level: seq<Digest>, index: nat)
    requires |level| > 2 && index < SplitPoint(|level|)
    ensures AuditPath(h, level, index)
         == SiblingStep(level, index) + AuditPath(h, PairUp(h, level), index / 2)
    decreases |level|, 0
  {
    hide NodePreimage, PairUp, TreeHash, AuditPath, SiblingStep;
    var k := SplitPoint(|level|);
    var left, right := level[..k], level[k..];
    NextLevelHalves(h, level);
    PathUnfolds(h, level, index);
    PathUnfolds(h, PairUp(h, level), index / 2);
    PairUpKeepsThePath(h, left, index);
    PromotedOrPaired(h, right);
    if |right| > 1 {
      PairUpKeepsTheTree(h, right);
    }
    SiblingsStayTogether(level, k, index);
    Regroup(SiblingStep(level, index), AuditPath(h, PairUp(h, left), index / 2),
            [ProofStep(Right, TreeHash(h, right))]);
  }

  lemma PathOfOne(h: Hash, level: seq<Digest>)
    requires |level| == 1
    ensures AuditPath(h, level, 0) == SiblingStep(level, 0) + AuditPath(h, PairUp(h, level), 0)
  {
  }

  lemma {:induction false} PathInRightHalf(h: Hash, level: seq<Digest>, index: nat)
    requires |level| > 2 && SplitPoint(|level|) <= index < |level|
    ensures AuditPath(h, level, index)
         == SiblingStep(level, index) + AuditPath(h, PairUp(h, level), index / 2)
    decreases |level|, 0
  {
    hide NodePreimage, PairUp, TreeHash, AuditPath, SiblingStep;
    var k := SplitPoint(|level|);
    var left, right := level[..k], level[k..];
    NextLevelHalves(h, level);
    PathUnfolds(h, level, index);
    PathUnfolds(h, PairUp(h, level), index / 2);
    PairUpKeepsTheTree(h, left);
    assert (index - k) / 2 == index / 2 - k / 2;
    SiblingsStayTogether(level, k, index);
    if |right| > 1 {
      PairUpKeepsThePath(h, right, index - k);
    } else {
      PathOfOne(h, right);
    }
    Regroup(SiblingStep(level, index), AuditPath(h, PairUp(h, right), (index - k) / 2),
            [ProofStep(Left, TreeHash(h, left))]);
  }

  // ---------- The public operations ----------

  predicate LeafLe(a: AnchorLeaf, b: AnchorLeaf) {
    BytesLe(a.companyId, b.companyId)
  }

  function Sorted(leaves: seq<AnchorLeaf>): seq<AnchorLeaf> {
    Sort(LeafLe, leaves)
  }

  function LeafDigests(h: Hash, leaves: seq<AnchorLeaf>): (digests: seq<Digest>)
    ensures |digests| == |leaves|
  {
    seq<Digest>(|leaves|, i requires 0 <= i < |leaves| => h(LeafPreimage(leaves[i])))
  }

  /** The root the anchor format documents: the tree hash over the leaves in
      company order. */
  function Root(h: Hash, leaves: seq<AnchorLeaf>): Option<Digest> {
    var digests := LeafDigests(h, Sorted(leaves));
    if digests == [] then None else Some(TreeHash(h, digests))
  }

  /** Fold a digest through the steps of a proof, first step first. */
  function Fold(h: Hash, start: Digest, proof: seq<ProofStep>): Digest {
    if proof == [] then start
    else h(StepPreimage(Fold(h, start, proof[..|proof| - 1]), proof[|proof| - 1]))
  }

  function StepPreimage(hash: Digest, step: ProofStep): seq<Byte> {
    match step.side
    case Left => NodePreimage(step.sibling, hash)
    case Right => NodePreimage(hash, step.sibling)
  }

  method HashAll(h: Hash, leaves: seq<AnchorLeaf>) returns (level: seq<Digest>)
    ensures level == LeafDigests(h, leaves)
  {
    level := [];
    for i := 0 to |leaves|
      invariant level == LeafDigests(h, leaves)[..i]
    {
      var digest := LeafHash(h, leaves[i]);
      level := level + [digest];
    }
  }

  /** One pass over a level: pairs are hashed, an odd last node is carried up. */
  method NextLevel(h: Hash, level: seq<Digest>) returns (next: seq<Digest>)
    ensures next == PairUp(h, level)
    ensures |next| == (|level| + 1) / 2
    ensures forall i | 0 <= i < |next| ::
      next[i] == if 2 * i + 1 < |level| then h([1] + level[2 * i] + level[2 * i + 1]) else level[2 * i]
  {
    next := [];
    var at: nat := 0;
    while at < |level|
      invariant at <= |level|
      invariant PairUp(h, level) == next + PairUp(h, level[at..])
    {
      PairUpFrom(h, level, at);
      if at + 1 < |level| {
        var node := NodeHash(h, level[at], level[at + 1]);
        Regroup(next, [node], PairUp(h, level[at + 2..]));
        next := next + [node];
        at := at + 2;
      } else {
        Regroup(next, [level[at]], []);
        next := next + [level[at]];
        at := at + 1;
      }
      hide PairUp, NodePreimage;
    }
    assert level[|level|..] == [] && PairUp(h, []) == [] && next + [] == next;
    forall i | 0 <= i < |next|
      ensures next[i] == if 2 * i + 1 < |level| then h([1] + level[2 * i] + level[2 * i + 1]) else level[2 * i]
    {
      PairUpAt(h, level, i);
    }
  }

  /** What is hashed next. */
  lemma PairUpFrom(h: Hash, level: seq<Digest>, at: nat)
    requires at < |level|
    ensures at + 1 < |level| ==>
      PairUp(h, level[at..]) == [h([1] + level[at] + level[at + 1])] + PairUp(h, level[at + 2..])
    ensures at + 1 == |level| ==> PairUp(h, level[at..]) == [level[at]] && level[at + 1..] == [] && PairUp(h, []) == []
  {
    var rest := level[at..];
    if at + 1 < |level| {
      assert rest[0] == level[at] && rest[1] == level[at + 1] && rest[2..] == level[at + 2..];
    }
  }

  lemma {:induction false} PairUpAt(h: Hash, level: seq<Digest>, i: nat)
    requires i < |PairUp(h, level)|
    ensures PairUp(h, level)[i]
         == if 2 * i + 1 < |level| then h([1] + level[2 * i] + level[2 * i + 1]) else level[2 * i]
    decreases i
  {
    if i > 0 {
      PairUpAt(h, level[2..], i - 1);
    }
  }

  method MerkleRoot(h: Hash, leaves: seq<AnchorLeaf>) returns (root: Option<Digest>)
    ensures root == Root(h, leaves)
    ensures root == None <==> leaves == []
  {
    LeafOrder();
    SortIsSorted(LeafLe, leaves);
    var level := HashAll(h, Sorted(leaves));
    if level == [] {
      return None;
    }
    while |level| > 1
      invariant level != []
      invariant TreeHash(h, level) == TreeHash(h, LeafDigests(h, Sorted(leaves)))
      decreases |level|
    {
      PairUpKeepsTheTree(h, level);
      level := NextLevel(h, level);
    }
    root := Some(level[0]);
  }

  /** `position` holds the company's first leaf. */
  predicate IsFirstOf(leaves: seq<AnchorLeaf>, companyId: Uuid, position: nat) {
    && position < |leaves| && leaves[position].companyId == companyId
    && forall j | 0 <= j < position :: leaves[j].companyId != companyId
  }

  /** `iter().position` */
  method Position(leaves: seq<AnchorLeaf>, companyId: Uuid) returns (index: Option<nat>)
    ensures index == None <==> forall leaf | leaf in leaves :: leaf.companyId != companyId
    ensures index.Some? ==> IsFirstOf(leaves, companyId, index.value)
  {
    var i := 0;
    while i < |leaves|
      invariant 0 <= i <= |leaves|
      invariant forall j | 0 <= j < i :: leaves[j].companyId != companyId
    {
      if leaves[i].companyId == companyId {
        return Some(i);
      }
      i := i + 1;
    }
    index := None;
  }

  /** The loop of `inclusion_proof`: collect one sibling per level. */
  method ClimbLevels(h: Hash, leafLevel: seq<Digest>, leafIndex: nat) returns (proof: seq<ProofStep>)
    requires leafIndex < |leafLevel|
    ensures proof == AuditPath(h, leafLevel, leafIndex)
  {
    var level, index: nat := leafLevel, leafIndex;
    proof := [];
    while |level| > 1
      invariant index < |level|
      invariant AuditPath(h, leafLevel, leafIndex) == proof + AuditPath(h, level, index)
      decreases |level|
    {
      PairUpKeepsThePath(h, level, index);
      Regroup(proof, SiblingStep(level, index), AuditPath(h, PairUp(h, level), index / 2));
      ghost var before := proof;
      var sibling := if index % 2 == 0 then index + 1 else index - 1;
      if sibling < |level| {
        proof := proof + [ProofStep(if sibling < index then Left else Right, level[sibling])];
      }
      assert proof == before + SiblingStep(level, index);
      level := NextLevel(h, level);
      index := index / 2;
    }
  }

  /** A company gets the audit path of its leaf in company order; one that is not
      among the leaves gets nothing. */
  method InclusionProof(h: Hash, leaves: seq<AnchorLeaf>, companyId: Uuid) returns (result: Option<seq<ProofStep>>)
    ensures result == None <==> forall leaf | leaf in leaves :: leaf.companyId != companyId
    ensures result.Some? ==> exists position: nat ::
      && IsFirstOf(Sorted(leaves), companyId, position)
      && result.value == AuditPath(h, LeafDigests(h, Sorted(leaves)), position)
  {
    var sorted := Sorted(leaves);
    LeafOrder();
    SortIsSorted(LeafLe, leaves);
    SameMembers(sorted, leaves);
    var found := Position(sorted, companyId);
    if found == None {
      return None;
    }
    var level := HashAll(h, sorted);
    var proof := ClimbLevels(h, level, found.value);
    assert IsFirstOf(sorted, companyId, found.value);
    result := Some(proof);
  }

  method VerifyInclusion(h: Hash, leaf: AnchorLeaf, proof: seq<ProofStep>, root: Digest) returns (ok: bool)
    ensures ok <==> Fold(h, h(LeafPreimage(leaf)), proof) == root
  {
    var hash := LeafHash(h, leaf);
    ghost var start := hash;
    for i := 0 to |proof|
      invariant hash == Fold(h, start, proof[..i])
    {
      assert proof[..i + 1][..i] == proof[..i];
      match proof[i].side {
        case Left => hash := NodeHash(h, proof[i].sibling, hash);
        case Right => hash := NodeHash(h, hash, proof[i].sibling);
      }
    }
    assert proof[..|proof|] == proof;
    ok := hash == root;
  }

  // ---------- Order independence ----------

  lemma LeafOrder()
    ensures TotalPreorder(LeafLe)
  {
    forall a, b ensures LeafLe(a, b) || LeafLe(b, a) {
      BytesLeTotal(a.companyId, b.companyId);
    }
    forall a, b, c | LeafLe(a, b) && LeafLe(b, c) ensures LeafLe(a, c) {
      BytesLeTransitive(a.companyId, b.companyId, c.companyId);
    }
  }

  lemma SameMembers<T>(s: seq<T>, t: seq<T>)
    requires multiset(s) == multiset(t)
    ensures forall x :: x in s <==> x in t
  {
    forall x ensures x in s <==> x in t {
      assert x in s <==> x in multiset(s);
    }
  }

  ghost predicate DistinctCompanies(leaves: seq<AnchorLeaf>) {
    forall a, b | a in leaves && b in leaves && a.companyId == b.companyId :: a == b
  }

  /** With one chain head per company the root does not depend on the order the
      leaves were read in. */
  lemma RootIgnoresOrder(h: Hash, leaves: seq<AnchorLeaf>, shuffled: seq<AnchorLeaf>)
    requires DistinctCompanies(leaves) && multiset(leaves) == multiset(shuffled)
    ensures Root(h, leaves) == Root(h, shuffled)
  {
    LeafOrder();
    forall a, b | a in leaves && b in leaves && LeafLe(a, b) && LeafLe(b, a) ensures a == b {
      BytesLeTotal(a.companyId, b.companyId);
    }
    SortOfPermutation(LeafLe, leaves, shuffled);
  }

  // ---------- Completeness ----------

  lemma {:induction false} AuditPathFolds(h: Hash, digests: seq<Digest>, m: nat)
    requires m < |digests|
    ensures Fold(h, digests[m], AuditPath(h, digests, m)) == TreeHash(h, digests)
    decreases |digests|
  {
    if |digests| > 1 {
      var k := SplitPoint(|digests|);
      var path := AuditPath(h, digests, m);
      if m < k {
        AuditPathFolds(h, digests[..k], m);
        assert path[..|path| - 1] == AuditPath(h, digests[..k], m);
      } else {
        AuditPathFolds(h, digests[k..], m - k);
        assert path[..|path| - 1] == AuditPath(h, digests[k..], m - k);
      }
    }
  }

  function Pow2(d: nat): nat {
    if d == 0 then 1 else 2 * Pow2(d - 1)
  }

  lemma Pow2Doubles(d: nat)
    ensures Pow2(d) > 1 ==> d > 0 && Pow2(d) == 2 * Pow2(d - 1)
  {
  }

  lemma HalfFits(m: nat, n: nat, half: nat)
    requires m < n <= 2 * half
    ensures m / 2 < (n + 1) / 2 <= half
  {
  }

  lemma SiblingStepIsOne(level: seq<Digest>, index: nat)
    requires index < |level|
    ensures |SiblingStep(level, index)| <= 1
  {
  }

  /** A proof has at most ceil(log2 n) steps: `d` steps suffice as soon as
      `n <= 2^d`. */
  lemma {:induction false} AuditPathIsShort(h: Hash, digests: seq<Digest>, m: nat, d: nat)
    requires m < |digests| <= Pow2(d)
    ensures |AuditPath(h, digests, m)| <= d
    decreases d
  {
    if |digests| > 1 {
      hide *;
      var next := PairUp(h, digests);
      PairUpKeepsThePath(h, digests, m);
      SiblingStepIsOne(digests, m);
      Pow2Doubles(d);
      HalfFits(m, |digests|, Pow2(d - 1));
      AuditPathIsShort(h, next, m / 2, d - 1);
    }
  }

  /** Every proof the prover hands out is accepted by the verifier against the
      root of the same leaves. */
  lemma ProofsAreComplete(h: Hash, leaves: seq<AnchorLeaf>, position: nat, d: nat)
    requires position < |Sorted(leaves)|
    ensures
      var sorted := Sorted(leaves);
      var proof := AuditPath(h, LeafDigests(h, sorted), position);
      && Root(h, leaves) == Some(Fold(h, h(LeafPreimage(sorted[position])), proof))
      && sorted[position] in leaves
      && (|leaves| <= Pow2(d) ==> |proof| <= d)
  {
    var digests := LeafDigests(h, Sorted(leaves));
    AuditPathFolds(h, digests, position);
    LeafOrder();
    SortIsSorted(LeafLe, leaves);
    SameMembers(Sorted(leaves), leaves);
    assert Sorted(leaves)[position] in Sorted(leaves);
    if |leaves| <= Pow2(d) {
      AuditPathIsShort(h, digests, position, d);
    }
  }

  /** End to end, with one chain head per company: the proof handed out for a leaf's
      company is accepted for that very leaf against the root of all of them. */
  lemma OwnLeafIsAccepted(h: Hash, leaves: seq<AnchorLeaf>, leaf: AnchorLeaf, position: nat)
    requires DistinctCompanies(leaves) && leaf in leaves
    requires IsFirstOf(Sorted(leaves), leaf.companyId, position)
    ensures
      var proof := AuditPath(h, LeafDigests(h, Sorted(leaves)), position);
      Root(h, leaves) == Some(Fold(h, h(LeafPreimage(leaf)), proof))
  {
    hide Sorted, AuditPath, Root, Fold, LeafPreimage;
    ProofsAreComplete(h, leaves, position, 0);
  }

  // ---------- Soundness ----------

  /** The byte strings hashed while the tree over `leaves` is computed. */
  ghost function TreeInputs(h: Hash, leaves: seq<AnchorLeaf>): set<seq<Byte>>
    requires leaves != []
    decreases |leaves|
  {
    if |leaves| == 1 then {LeafPreimage(leaves[0])}
    else
      var k := SplitPoint(|leaves|);
      {NodePreimage(TreeHash(h, LeafDigests(h, leaves[..k])), TreeHash(h, LeafDigests(h, leaves[k..])))}
      + TreeInputs(h, leaves[..k]) + TreeInputs(h, leaves[k..])
  }

  /** The byte strings hashed while a leaf is folded through a proof. */
  ghost function FoldInputs(h: Hash, leaf: AnchorLeaf, proof: seq<ProofStep>): set<seq<Byte>> {
    if proof == [] then {LeafPreimage(leaf)}
    else
      var front := proof[..|proof| - 1];
      {StepPreimage(Fold(h, h(LeafPreimage(leaf)), front), proof[|proof| - 1])} + FoldInputs(h, leaf, front)
  }

  /** Two different inputs with one digest, one from each side. */
  ghost predicate Collide(h: Hash, xs: set<seq<Byte>>, ys: set<seq<Byte>>) {
    exists x, y :: x in xs && y in ys && x != y && h(x) == h(y)
  }

  lemma DigestsOfHalves(h: Hash, leaves: seq<AnchorLeaf>, k: nat)
    requires k <= |leaves|
    ensures LeafDigests(h, leaves)[..k] == LeafDigests(h, leaves[..k])
    ensures LeafDigests(h, leaves)[k..] == LeafDigests(h, leaves[k..])
  {
  }

  lemma CollideMonotone(h: Hash, xs: set<seq<Byte>>, ys: set<seq<Byte>>, xs': set<seq<Byte>>, ys': set<seq<Byte>>)
    requires Collide(h, xs, ys) && xs <= xs' && ys <= ys'
    ensures Collide(h, xs', ys')
  {
    var x, y :| x in xs && y in ys && x != y && h(x) == h(y);
    assert x in xs' && y in ys';
  }

  /** Whatever folds to the tree hash is a leaf of the tree with its own audit
      path, or a collision is on the table. */
  lemma {:induction false} FoldIsSound(h: Hash, leaves: seq<AnchorLeaf>, leaf: AnchorLeaf, proof: seq<ProofStep>)
    requires leaves != []
    requires Fold(h, h(LeafPreimage(leaf)), proof) == TreeHash(h, LeafDigests(h, leaves))
    ensures
      || Collide(h, FoldInputs(h, leaf, proof), TreeInputs(h, leaves))
      || exists m | 0 <= m < |leaves| :: leaves[m] == leaf && proof == AuditPath(h, LeafDigests(h, leaves), m)
    decreases |leaves|, 1
  {
    var x := if proof == [] then LeafPreimage(leaf)
             else StepPreimage(Fold(h, h(LeafPreimage(leaf)), proof[..|proof| - 1]), proof[|proof| - 1]);
    assert x in FoldInputs(h, leaf, proof);
    assert h(x) == Fold(h, h(LeafPreimage(leaf)), proof);
    var digests := LeafDigests(h, leaves);
    if |leaves| == 1 {
      var y := LeafPreimage(leaves[0]);
      assert y in TreeInputs(h, leaves) && h(y) == TreeHash(h, digests);
      if proof != [] {
        assert x[0] == 1 && y[0] == 0;
      } else if x == y {
        LeafPreimageInjective(leaf, leaves[0]);
        assert AuditPath(h, digests, 0) == [];
      }
    } else {
      var k := SplitPoint(|leaves|);
      DigestsOfHalves(h, leaves, k);
      var l, r := TreeHash(h, digests[..k]), TreeHash(h, digests[k..]);
      var y := NodePreimage(l, r);
      assert y in TreeInputs(h, leaves) && h(y) == TreeHash(h, digests);
      if proof == [] {
        LeafIsNeverNode(leaf, l, r);
      } else if x == y {
        SoundStep(h, leaves, leaf, proof);
      }
    }
  }

  /** A path inside one half, extended by that half's sibling, is a path of the tree. */
  lemma PathThroughHalf(h: Hash, leaves: seq<AnchorLeaf>, side: Side, m: nat)
    requires |leaves| > 1
    requires m < |if side == Right then leaves[..SplitPoint(|leaves|)] else leaves[SplitPoint(|leaves|)..]|
    ensures
      var k := SplitPoint(|leaves|);
      var (half, other) := if side == Right then (leaves[..k], leaves[k..]) else (leaves[k..], leaves[..k]);
      var m' := if side == Right then m else k + m;
      && leaves[m'] == half[m]
      && AuditPath(h, LeafDigests(h, leaves), m')
         == AuditPath(h, LeafDigests(h, half), m) + [ProofStep(side, TreeHash(h, LeafDigests(h, other)))]
  {
    hide NodePreimage, TreeHash, LeafDigests, SplitPoint;
    DigestsOfHalves(h, leaves, SplitPoint(|leaves|));
  }

  lemma StepNamesHalf(hash: Digest, step: ProofStep, l: Digest, r: Digest)
    requires StepPreimage(hash, step) == NodePreimage(l, r)
    ensures if step.side == Right then hash == l && step.sibling == r else hash == r && step.sibling == l
  {
    hide NodePreimage;
    if step.side == Right {
      NodePreimageInjective(hash, step.sibling, l, r);
    } else {
      NodePreimageInjective(step.sibling, hash, l, r);
    }
  }

  lemma InputsGrow(h: Hash, leaves: seq<AnchorLeaf>, leaf: AnchorLeaf, proof: seq<ProofStep>)
    requires |leaves| > 1 && proof != []
    ensures FoldInputs(h, leaf, proof[..|proof| - 1]) <= FoldInputs(h, leaf, proof)
    ensures TreeInputs(h, leaves[..SplitPoint(|leaves|)]) <= TreeInputs(h, leaves)
    ensures TreeInputs(h, leaves[SplitPoint(|leaves|)..]) <= TreeInputs(h, leaves)
  {
    hide TreeHash, NodePreimage, LeafPreimage, Fold, StepPreimage, LeafDigests;
  }

  /** The last step of a proof names one half of the tree; the rest of the proof
      is about that half. */
  lemma {:induction false} SoundStep(h: Hash, leaves: seq<AnchorLeaf>, leaf: AnchorLeaf, proof: seq<ProofStep>)
    requires |leaves| > 1 && proof != []
    requires
      var k := SplitPoint(|leaves|);
      StepPreimage(Fold(h, h(LeafPreimage(leaf)), proof[..|proof| - 1]), proof[|proof| - 1])
      == NodePreimage(TreeHash(h, LeafDigests(h, leaves[..k])), TreeHash(h, LeafDigests(h, leaves[k..])))
    ensures
      || Collide(h, FoldInputs(h, leaf, proof), TreeInputs(h, leaves))
      || exists m | 0 <= m < |leaves| :: leaves[m] == leaf && proof == AuditPath(h, LeafDigests(h, leaves), m)
    decreases |leaves|, 0
  {
    var k := SplitPoint(|leaves|);
    var front, step := proof[..|proof| - 1], proof[|proof| - 1];
    assert proof == front + [step];
    hide TreeHash, NodePreimage, LeafPreimage, Fold, StepPreimage, FoldInputs, TreeInputs, Collide, AuditPath,
      LeafDigests;
    var half := if step.side == Right then leaves[..k] else leaves[k..];
    StepNamesHalf(Fold(h, h(LeafPreimage(leaf)), front), step,
                  TreeHash(h, LeafDigests(h, leaves[..k])), TreeHash(h, LeafDigests(h, leaves[k..])));
    FoldIsSound(h, half, leaf, front);
    if Collide(h, FoldInputs(h, leaf, front), TreeInputs(h, half)) {
      InputsGrow(h, leaves, leaf, proof);
      CollideMonotone(h, FoldInputs(h, leaf, front), TreeInputs(h, half),
                      FoldInputs(h, leaf, proof), TreeInputs(h, leaves));
    } else {
      var m: nat :| m < |half| && half[m] == leaf && front == AuditPath(h, LeafDigests(h, half), m);
      PathThroughHalf(h, leaves, step.side, m);
    }
  }

  /** Soundness of the verifier: an accepted leaf is in the anchored set, with the
      same sequence number and hash, and the proof is the one the prover would
      have given; otherwise two inputs with one digest can be read off the proof
      and the tree. */
  lemma AcceptedLeafIsAnchored(h: Hash, leaves: seq<AnchorLeaf>, leaf: AnchorLeaf, proof: seq<ProofStep>)
    requires Root(h, leaves) == Some(Fold(h, h(LeafPreimage(leaf)), proof))
    ensures
      || Collide(h, FoldInputs(h, leaf, proof), TreeInputs(h, Sorted(leaves)))
      || (leaf in leaves
          && exists m | 0 <= m < |Sorted(leaves)| ::
               Sorted(leaves)[m] == leaf && proof == AuditPath(h, LeafDigests(h, Sorted(leaves)), m))
  {
    FoldIsSound(h, Sorted(leaves), leaf, proof);
    LeafOrder();
    SortIsSorted(LeafLe, leaves);
    SameMembers(Sorted(leaves), leaves);
  }

  /** A rewritten history is convicted: once a root is public, no other chain head
      of an anchored company is accepted against it without a collision. */
  lemma RewrittenHeadIsRejected(h: Hash, leaves: seq<AnchorLeaf>, anchored: AnchorLeaf, rewritten: AnchorLeaf,
                                proof: seq<ProofStep>)
    requires DistinctCompanies(leaves) && anchored in leaves
    requires rewritten.companyId == anchored.companyId && rewritten != anchored
    requires !Collide(h, FoldInputs(h, rewritten, proof), TreeInputs(h, Sorted(leaves)))
    ensures Root(h, leaves) != Some(Fold(h, h(LeafPreimage(rewritten)), proof))
  {
    if Root(h, leaves) == Some(Fold(h, h(LeafPreimage(rewritten)), proof)) {
      AcceptedLeafIsAnchored(h, leaves, rewritten, proof);
    }
  }

  // ---------- The frozen format ----------

  /** "17:regnmed-anchor-v1;" */
  const LEAF_START: seq<Byte> :=
    [49, 55, 58, 114, 101, 103, 110, 109, 101, 100, 45, 97, 110, 99, 104, 111, 114, 45, 118, 49, 59]

  /** What is hashed for a leaf, byte for byte: 0x00, the version, the company, the
      sequence number in decimal and the chain hash, each as `<length>:<bytes>;`. */
  lemma LeafPreimageIs(leaf: AnchorLeaf)
    ensures
      var number := SignedToString(leaf.lastSeq);
      LeafPreimage(leaf)
      == [0] + (LEAF_START
                + (([49, 54, 58] + leaf.companyId + [59])
                   + ((AsBytes(ToString(|number|)) + [58] + AsBytes(number) + [59])
                      + ([51, 50, 58] + leaf.lastHash + [59]))))
  {
    var number := SignedToString(leaf.lastSeq);
    FourFields(AsBytes(VERSION_FIELD), leaf.companyId, AsBytes(number), leaf.lastHash);
    VersionField();
    FixedField(leaf.companyId);
    FixedField(leaf.lastHash);
    hide Fields, AsBytes, ToString, SignedToString;
  }

  lemma FixedField(bytes: seq<Byte>)
    ensures |bytes| == 16 ==> Field(bytes) == [49, 54, 58] + bytes + [59]
    ensures |bytes| == 32 ==> Field(bytes) == [51, 50, 58] + bytes + [59]
  {
    assert AsBytes(ToString(16)) == [49, 54] && AsBytes(ToString(32)) == [51, 50];
    assert [49, 54] + [58] == [49, 54, 58] && [51, 50] + [58] == [51, 50, 58];
  }

  lemma VersionField()
    ensures Field(AsBytes(VERSION_FIELD))
         == LEAF_START
  {
    assert AsBytes(ToString(17)) == [49, 55];
  }

  lemma FourFields(a: seq<Byte>, b: seq<Byte>, c: seq<Byte>, d: seq<Byte>)
    ensures Fields([a, b, c, d]) == Field(a) + (Field(b) + (Field(c) + Field(d)))
  {
    hide Field;
    OneField(d);
    assert [c, d][1..] == [d] && [b, c, d][1..] == [c, d] && [a, b, c, d][1..] == [b, c, d];
    assert Fields([b, c, d]) == Field(b) + Fields([c, d]);
  }

  lemma {:induction false} PowersApart(a: nat, b: nat)
    requires Pow2(a) < Pow2(b)
    ensures 2 * Pow2(a) <= Pow2(b)
  {
    if a > 0 && b > 0 {
      PowersApart(a - 1, b - 1);
    }
  }

  lemma {:induction false} PowerOf(k: nat) returns (d: nat)
    requires IsPowerOfTwo(k)
    ensures k == Pow2(d)
  {
    if k == 1 {
      d := 0;
    } else {
      var half := PowerOf(k / 2);
      d := half + 1;
    }
  }

  /** Section 2.1 of RFC 6962: with `2^d` the largest power of two below the number of
      leaves, a tree is the hash of 0x01, the tree of its first `2^d` leaves, and the
      tree of the others, in that order. */
  lemma TreeHashIs(h: Hash, digests: seq<Digest>, d: nat)
    requires Pow2(d) < |digests| <= 2 * Pow2(d)
    ensures TreeHash(h, digests)
         == h([1] + TreeHash(h, digests[..Pow2(d)]) + TreeHash(h, digests[Pow2(d)..]))
  {
    var k := SplitPoint(|digests|);
    var e := PowerOf(k);
    if Pow2(d) < k {
      PowersApart(d, e);
    } else if k < Pow2(d) {
      PowersApart(e, d);
    }
  }

  lemma TreeOfOne(h: Hash, digest: Digest)
    ensures TreeHash(h, [digest]) == digest
  {
  }

  /** One step of a proof: a left sibling goes before the digest folded so far, a right one
      after it. */
  lemma FoldIs(h: Hash, start: Digest, proof: seq<ProofStep>, step: ProofStep)
    ensures Fold(h, start, []) == start
    ensures Fold(h, start, proof + [step])
         == h(if step.side == Left then [1] + step.sibling + Fold(h, start, proof)
              else [1] + Fold(h, start, proof) + step.sibling)
  {
    assert (proof + [step])[..|proof|] == proof;
  }

  /** The leaves of the root are all the leaves, by company id, lowest first byte by byte. */
  lemma LeavesStandByCompany(leaves: seq<AnchorLeaf>, i: nat, j: nat)
    requires i < j < |leaves|
    ensures multiset(Sorted(leaves)) == multiset(leaves) && |Sorted(leaves)| == |leaves|
    ensures
      var a, b := Sorted(leaves)[i].companyId, Sorted(leaves)[j].companyId;
      a == b || exists n | 0 <= n < 16 :: a[..n] == b[..n] && a[n] < b[n]
  {
    LeafOrder();
    SortIsSorted(LeafLe, leaves);
    assert |multiset(Sorted(leaves))| == |multiset(leaves)|;
    BytesLeIsLexicographic(Sorted(leaves)[i].companyId, Sorted(leaves)[j].companyId);
    hide BytesLe;
    assert SortedBy(LeafLe, Sorted(leaves));
  }

  /** The root over two companies, the lower id first whichever way they are given. */
  lemma RootOfTwo(h: Hash, a: AnchorLeaf, b: AnchorLeaf, n: nat)
    requires n < 16 && a.companyId[..n] == b.companyId[..n] && a.companyId[n] < b.companyId[n]
    ensures Root(h, [a, b]) == Root(h, [b, a]) == Some(h([1] + h(LeafPreimage(a)) + h(LeafPreimage(b))))
  {
    BytesLeIsLexicographic(a.companyId, b.companyId);
    BytesLeTotal(a.companyId, b.companyId);
    assert a.companyId[n] != b.companyId[n];
    SortOfTwo(LeafLe, a, b);
    SortOfTwo(LeafLe, b, a);
    hide LeafPreimage, BytesLe;
    assert LeafDigests(h, [a, b]) == [h(LeafPreimage(a)), h(LeafPreimage(b))];
    hide LeafDigests, Sort;
    TreeOfTwo(h, h(LeafPreimage(a)), h(LeafPreimage(b)));
    hide TreeHash;
  }

  lemma TreeOfTwo(h: Hash, left: Digest, right: Digest)
    ensures TreeHash(h, [left, right]) == h([1] + left + right)
  {
    assert [left, right][..1] == [left] && [left, right][1..] == [right];
    TreeOfOne(h, left);
    TreeOfOne(h, right);
    assert SplitPoint(2) == 1;
  }
}
