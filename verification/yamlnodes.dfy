// The same operations on node objects, which they rewrite in place. `tree` is
// the value a node stands for, `repr` the nodes it is made of.
module YamlNodes {
  import opened Wrappers
  import opened Secrets

  class Node {
    var kind: Kind
    var tag: string
    var value: string
    var content: seq<Node>
    ghost var tree: Tree
    ghost var repr: set<Node>

    ghost predicate Valid()
      reads this, repr
      decreases repr
    {
      && this in repr
      && tree.kind == kind && tree.tag == tag && tree.value == value && |tree.content| == |content|
      && (forall i :: 0 <= i < |content| ==>
            && content[i] in repr && content[i].repr <= repr && this !in content[i].repr
            && content[i].Valid() && content[i].tree == tree.content[i])
      && (forall i, j :: 0 <= i < j < |content| ==> content[i].repr !! content[j].repr)
    }

    constructor (kind: Kind, tag: string, value: string, content: seq<Node>, ghost tree: Tree, ghost repr: set<Node>)
      ensures this.kind == kind && this.tag == tag && this.value == value && this.content == content
      ensures this.tree == tree && this.repr == repr + {this}
    {
      this.kind, this.tag, this.value, this.content := kind, tag, value, content;
      this.tree, this.repr := tree, repr + {this};
    }
  }

  // redactNode.
  method RedactNode(node: Node)
    requires node.Valid()
    modifies node.repr
    ensures node.Valid() && node.repr == old(node.repr)
    ensures node.tree == Redact(old(node.tree))
    decreases node.repr, 1
  {
    if node.kind == Mapping {
      RedactMapping(node);
      return;
    }
    ghost var before := node.tree;
    ghost var redacted := RedactAll(before.content);
    for i := 0 to |node.content|
      invariant node.Valid() && node.repr == old(node.repr) && node.content == old(node.content)
      invariant node.tree == before.(content := node.tree.content)
      invariant forall j :: 0 <= j < i ==> node.tree.content[j] == redacted[j]
      invariant forall j :: i <= j < |node.content| ==> node.tree.content[j] == before.content[j]
    {
      RedactAllAt(before.content, i);
      RedactChild(node, i);
    }
    assert node.tree.content == redacted;
  }

  method RedactChild(node: Node, i: nat)
    requires node.Valid() && i < |node.content|
    modifies node.repr
    ensures node.Valid() && node.repr == old(node.repr) && node.content == old(node.content)
    ensures node.tree == old(node.tree).(content := old(node.tree).content[i := Redact(old(node.tree).content[i])])
    decreases node.content[i].repr, 2
  {
    RedactNode(node.content[i]);
    node.tree := node.tree.(content := node.tree.content[i := node.content[i].tree]);
  }

  // Its mapping branch: keys stay, values are masked or redacted.
  method RedactMapping(node: Node)
    requires node.Valid() && node.kind == Mapping
    modifies node.repr
    ensures node.Valid() && node.repr == old(node.repr)
    ensures node.tree == Redact(old(node.tree))
    decreases node.repr, 0
  {
    ghost var before := node.tree;
    var i := 0;
    while i + 1 < |node.content|
      invariant 0 <= i <= |node.content| == |before.content| && i % 2 == 0
      invariant node.Valid() && node.repr == old(node.repr) && node.content == old(node.content)
      invariant node.tree == before.(content := node.tree.content)
      invariant PairsRedacted(before.content, node.tree.content, i)
      decreases |node.content| - i
    {
      NextPairRedacted(before.content, node.tree.content, i);
      RedactMappedChild(node, i + 1, node.content[i].value);
      i := i + 2;
    }
    AllPairsRedacted(before.content, node.tree.content, i);
  }

  // The first n items are redacted, the rest are as they were.
  ghost predicate PairsRedacted(ts: seq<Tree>, rs: seq<Tree>, n: nat) {
    && n <= |ts| == |rs|
    && (forall j :: 0 <= j < n ==> rs[j] == RedactedAt(ts, j))
    && (forall j :: n <= j < |ts| ==> rs[j] == ts[j])
  }

  lemma NextPairRedacted(ts: seq<Tree>, rs: seq<Tree>, n: nat)
    requires PairsRedacted(ts, rs, n) && n % 2 == 0 && n + 1 < |ts|
    ensures rs[n] == ts[n] && rs[n + 1] == ts[n + 1]
    ensures PairsRedacted(ts, rs[n + 1 := RedactValue(ts[n].value, ts[n + 1])], n + 2)
  {
    assert (n + 1) % 2 == 1;
  }

  lemma AllPairsRedacted(ts: seq<Tree>, rs: seq<Tree>, n: nat)
    requires PairsRedacted(ts, rs, n) && n % 2 == 0 && |ts| <= n + 1
    ensures rs == RedactPairs(ts)
  {
    forall j | 0 <= j < |ts| ensures rs[j] == RedactPairs(ts)[j] {
      RedactPairsAt(ts, j);
    }
  }

  method RedactMappedChild(node: Node, i: nat, key: string)
    requires node.Valid() && i < |node.content|
    modifies node.repr
    ensures node.Valid() && node.repr == old(node.repr) && node.content == old(node.content)
    ensures node.tree == old(node.tree).(
      content := old(node.tree).content[i := RedactValue(key, old(node.tree).content[i])])
    decreases node.content[i].repr, 3
  {
    RedactMappedValue(key, node.content[i]);
    node.tree := node.tree.(content := node.tree.content[i := node.content[i].tree]);
  }

  method RedactMappedValue(key: string, value: Node)
    requires value.Valid()
    modifies value.repr
    ensures value.Valid() && value.repr == old(value.repr)
    ensures value.tree == RedactValue(key, old(value.tree))
    decreases value.repr, 2
  {
    if key == PAT_TOKEN {
      value.kind := Scalar;
      value.tag := "!!str";
      value.value := "********";
      value.content := [];
      value.tree := MASKED;
    } else {
      RedactNode(value);
    }
  }

  // copyNode: a tree of the same value that shares no node with anything.
  method CopyNode(node: Node) returns (result: Node)
    requires node.Valid()
    ensures result.Valid() && fresh(result.repr) && result.tree == node.tree
    decreases node.repr
  {
    var content: seq<Node> := [];
    ghost var repr: set<Node> := {};
    for i := 0 to |node.content|
      invariant |content| == i && fresh(repr)
      invariant forall j :: 0 <= j < i ==>
        content[j].Valid() && content[j] in repr && content[j].repr <= repr && content[j].tree == node.tree.content[j]
      invariant forall j, k :: 0 <= j < k < i ==> content[j].repr !! content[k].repr
    {
      var child := CopyNode(node.content[i]);
      content := content + [child];
      repr := repr + child.repr;
    }
    result := new Node(node.kind, node.tag, node.value, content, node.tree, repr);
  }

  // mergeSecretNodes. The current tree is only read, and the draft takes over
  // copies of it, never its nodes.
  method MergeSecretNodes(draft: Node, current: Node)
    requires draft.Valid() && current.Valid() && draft.repr !! current.repr
    modifies draft.repr
    ensures draft.Valid() && fresh(draft.repr - old(draft.repr))
    ensures draft.tree == Merge(old(draft.tree), current.tree)
    decreases draft.tree, 1
  {
    if draft.kind != current.kind {
      return;
    }
    if draft.kind == Mapping {
      MergeMapping(draft, current);
      return;
    }
    ghost var before := draft.tree;
    for i := 0 to |draft.content|
      invariant draft.Valid() && fresh(draft.repr - old(draft.repr))
      invariant |draft.content| == |before.content| && draft.tree == before.(content := draft.tree.content)
      invariant forall j :: 0 <= j < i ==> draft.tree.content[j] == MergedItem(before.content, current.tree.content, j)
      invariant forall j :: i <= j < |before.content| ==> draft.tree.content[j] == before.content[j]
    {
      if i < |current.content| {
        MergeChild(draft, i, current.content[i]);
      }
    }
    forall i | 0 <= i < |before.content|
      ensures MergeAll(before.content, current.tree.content)[i] == draft.tree.content[i]
    {
      MergeAllAt(before.content, current.tree.content, i);
    }
    assert MergeAll(before.content, current.tree.content) == draft.tree.content;
  }

  ghost function MergedItem(drafts: seq<Tree>, currents: seq<Tree>, i: nat): Tree
    requires i < |drafts|
  {
    if i < |currents| then Merge(drafts[i], currents[i]) else drafts[i]
  }

  method MergeChild(draft: Node, i: nat, current: Node)
    requires draft.Valid() && i < |draft.content| && current.Valid() && draft.repr !! current.repr
    modifies draft.repr
    ensures draft.Valid() && fresh(draft.repr - old(draft.repr)) && draft.content == old(draft.content)
    ensures draft.tree == old(draft.tree).(
      content := old(draft.tree).content[i := Merge(old(draft.tree).content[i], current.tree)])
    decreases draft.tree.content[i], 3
  {
    MergeSecretNodes(draft.content[i], current);
    draft.repr := draft.repr + draft.content[i].repr;
    draft.tree := draft.tree.(content := draft.tree.content[i := draft.content[i].tree]);
  }

  ghost predicate Indexes(values: map<string, Node>, current: Node)
    reads current, current.content
  {
    forall key :: (key in values <==> Find(current.tree.content, key).Some?) &&
      (key in values ==> values[key] in current.content && values[key].tree == Find(current.tree.content, key).value)
  }

  // The values of the current mapping by key; a repeated key keeps its last.
  method IndexValues(current: Node) returns (values: map<string, Node>)
    requires current.Valid()
    ensures Indexes(values, current)
  {
    values := map[];
    var i := 0;
    while i + 1 < |current.content|
      invariant 0 <= i <= |current.content| && i % 2 == 0
      invariant forall key :: key in values <==> FindUpTo(current.tree.content, key, i).Some?
      invariant forall key :: key in values ==>
        && values[key] in current.content && values[key].tree == FindUpTo(current.tree.content, key, i).value
      decreases |current.content| - i
    {
      values := values[current.content[i].value := current.content[i + 1]];
      i := i + 2;
    }
    assert i == |current.content| - |current.content| % 2;
  }

  method MergeMapping(draft: Node, current: Node)
    requires draft.Valid() && current.Valid() && draft.repr !! current.repr
    requires draft.kind == Mapping && current.kind == Mapping
    modifies draft.repr
    ensures draft.Valid() && fresh(draft.repr - old(draft.repr))
    ensures draft.tree == Merge(old(draft.tree), current.tree)
    decreases draft.tree, 0
  {
    ghost var before, currents := draft.tree, current.tree.content;
    var values := IndexValues(current);
    var i := 0;
    while i + 1 < |draft.content|
      invariant 0 <= i <= |draft.content| == |before.content| && i % 2 == 0
      invariant draft.Valid() && fresh(draft.repr - old(draft.repr))
      invariant draft.tree == before.(content := draft.tree.content)
      invariant PairsMerged(before.content, currents, draft.tree.content, i)
      decreases |before.content| - i
    {
      NextPairMerged(before.content, currents, draft.tree.content, i);
      MergePair(draft, i, values, current);
      i := i + 2;
    }
    AllPairsMerged(before.content, currents, draft.tree.content, i);
  }

  // The first n items are merged, the rest are as they were.
  ghost predicate PairsMerged(ts: seq<Tree>, currents: seq<Tree>, ms: seq<Tree>, n: nat) {
    && n <= |ts| == |ms|
    && (forall j :: 0 <= j < n ==> ms[j] == MergedAt(ts, currents, j))
    && (forall j :: n <= j < |ts| ==> ms[j] == ts[j])
  }

  lemma NextPairMerged(ts: seq<Tree>, currents: seq<Tree>, ms: seq<Tree>, n: nat)
    requires PairsMerged(ts, currents, ms, n) && n % 2 == 0 && n + 1 < |ts|
    ensures ms[n] == ts[n] && ms[n + 1] == ts[n + 1]
    ensures PairsMerged(ts, currents, ms[n + 1 := MergeValue(ts[n].value, ts[n + 1], Find(currents, ts[n].value))], n + 2)
  {
    assert (n + 1) % 2 == 1;
  }

  lemma AllPairsMerged(ts: seq<Tree>, currents: seq<Tree>, ms: seq<Tree>, n: nat)
    requires PairsMerged(ts, currents, ms, n) && n % 2 == 0 && |ts| <= n + 1
    ensures ms == MergePairs(ts, currents)
  {
    forall j | 0 <= j < |ts| ensures ms[j] == MergePairs(ts, currents)[j] {
      MergePairsAt(ts, currents, j);
    }
  }

  method MergePair(draft: Node, i: nat, values: map<string, Node>, current: Node)
    requires draft.Valid() && i + 1 < |draft.content| && current.Valid() && draft.repr !! current.repr
    requires Indexes(values, current)
    modifies draft.repr
    ensures draft.Valid() && fresh(draft.repr - old(draft.repr))
    ensures draft.tree == old(draft.tree).(
      content := old(draft.tree).content[i + 1 := MergeValue(
        old(draft.tree).content[i].value, old(draft.tree).content[i + 1],
        Find(current.tree.content, old(draft.tree).content[i].value))])
    decreases draft.tree.content[i + 1], 5
  {
    var key := draft.content[i].value;
    assert key == draft.tree.content[i].value;
    if key in values {
      MergeMappedChild(draft, i + 1, key, values[key]);
    }
  }

  // Puts a copy of the current node in place if the draft left the secret
  // masked, otherwise merges below.
  method MergeMappedChild(draft: Node, i: nat, key: string, current: Node)
    requires draft.Valid() && i < |draft.content| && current.Valid() && draft.repr !! current.repr
    modifies draft.repr
    ensures draft.Valid() && fresh(draft.repr - old(draft.repr))
    ensures draft.tree == old(draft.tree).(
      content := old(draft.tree).content[i := MergeValue(key, old(draft.tree).content[i], Some(current.tree))])
    decreases draft.tree.content[i], 4
  {
    if key == PAT_TOKEN && IsMask(draft.content[i].value) {
      var copy := CopyNode(current);
      draft.content := draft.content[i := copy];
      draft.repr := draft.repr + copy.repr;
      draft.tree := draft.tree.(content := draft.tree.content[i := copy.tree]);
    } else {
      MergeChild(draft, i, current);
    }
  }
}
