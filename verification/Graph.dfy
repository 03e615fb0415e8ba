/** What is attached to an artifact in its repository: internal/oci/graph.go. */
module Graph {
  import opened Options
  import opened Sequences
  import opened Sorting

  const MAX_DEPTH := 4
  const MAX_NODES := 64

  datatype Ref = ByDigest(digest: string) | ByTag(tag: string)

  datatype Link = Root | Subject | Tagged | Index

  datatype Descriptor = Descriptor(digest: string, created: string)

  /** A manifest, with the children of an image index and the digest of the
      manifest it refers to, if it does. */
  datatype Manifest = Manifest(digest: string, created: string, manifests: seq<string>, subject: Option<string>)

  /** A repository: the manifests that can be fetched, the referrers that are
      listed of a digest, the digests whose listing fails, and the tags. */
  datatype Repository = Repository(
    manifests: map<Ref, Manifest>,
    referrers: map<string, seq<Descriptor>>,
    unlisted: set<string>,
    tags: seq<string>,
    tagsUnlisted: bool)

  /** A manifest has the digest it is fetched by, and a digest has one manifest. */
  predicate Consistent(repo: Repository) {
    && (forall r :: r in repo.manifests && r.ByDigest? ==> repo.manifests[r].digest == r.digest)
    && (forall r, s :: r in repo.manifests && s in repo.manifests && repo.manifests[r].digest == repo.manifests[s].digest ==>
          repo.manifests[r] == repo.manifests[s])
  }

  datatype Candidate = Candidate(ref: Ref, link: Link, tag: string)

  /** A manifest of the graph. Nodes are named by their position in the order in
      which they were fetched; the root is its own parent. */
  datatype Node = Node(
    manifest: Manifest,
    link: Link,
    tag: string,
    parent: nat,
    depth: nat,
    children: seq<nat>,
    referrers: seq<nat>,
    truncated: bool,
    err: bool)

  // ---------------------------------------------------------- specification

  predicate OlderFirst(a: Descriptor, b: Descriptor) {
    if a.created != b.created then CompareStrings(a.created, b.created) <= 0 else CompareStrings(a.digest, b.digest) <= 0
  }

  function Listed(repo: Repository, digest: string): seq<Descriptor> {
    if digest in repo.referrers then SortBy(repo.referrers[digest], OlderFirst) else []
  }

  const SUFFIXES: seq<string> := [".sig", ".att", ".sbom"]

  function HasPrefix(s: string, prefix: string): bool { prefix <= s }

  /** The tags cosign stores what belongs to digest under, that exist. */
  function CosignTags(repo: Repository, digest: string, n: nat): seq<string>
    requires n <= |SUFFIXES|
  {
    if n == 0 || !HasPrefix(digest, "sha256:") then []
    else
      var tag := "sha256-" + digest[7..] + SUFFIXES[n - 1];
      CosignTags(repo, digest, n - 1) + if tag in repo.tags then [tag] else []
  }

  function ChildrenOf(m: Manifest): seq<Candidate> {
    seq(|m.manifests|, i requires 0 <= i < |m.manifests| => Candidate(ByDigest(m.manifests[i]), Index, ""))
  }

  function ReferrersOf(listed: seq<Descriptor>): seq<Candidate> {
    seq(|listed|, i requires 0 <= i < |listed| => Candidate(ByDigest(listed[i].digest), Subject, ""))
  }

  function TaggedOf(tags: seq<string>): seq<Candidate> {
    seq(|tags|, i requires 0 <= i < |tags| => Candidate(ByTag(tags[i]), Tagged, tags[i]))
  }

  /** What is attached to m: its children, its referrers oldest first, and what
      cosign's tags name. */
  function AttachedTo(repo: Repository, m: Manifest): seq<Candidate> {
    ChildrenOf(m) + ReferrersOf(Listed(repo, m.digest)) + TaggedOf(CosignTags(repo, m.digest, |SUFFIXES|))
  }

  /** n is attached to m, as the candidate c. */
  predicate Attaches(repo: Repository, m: Manifest, c: Candidate, n: Manifest) {
    c in AttachedTo(repo, m) && c.ref in repo.manifests && repo.manifests[c.ref] == n
  }

  ghost predicate IsAttached(repo: Repository, m: Manifest, n: Manifest) {
    exists c :: Attaches(repo, m, c, n)
  }

  /** path leads from one manifest to the next that is attached to it. */
  ghost predicate IsPath(repo: Repository, path: seq<Manifest>) {
    forall i :: 0 <= i < |path| - 1 ==> IsAttached(repo, path[i], path[i + 1])
  }

  /** path leads from root to m in the number of steps. */
  ghost predicate Reaches(repo: Repository, root: Manifest, m: Manifest, path: seq<Manifest>) {
    path != [] && path[0] == root && path[|path| - 1] == m && IsPath(repo, path)
  }

  // -------------------------------------------------------------- the tree

  predicate IsFetched(tree: seq<Node>, digest: string) {
    exists i :: 0 <= i < |tree| && tree[i].manifest.digest == digest
  }

  predicate DistinctDigests(tree: seq<Node>) {
    forall i, j :: 0 <= i < j < |tree| ==> tree[i].manifest.digest != tree[j].manifest.digest
  }

  /** The node at position i came from its parent, one level above. */
  ghost predicate Descends(repo: Repository, tree: seq<Node>, i: nat)
    requires i < |tree|
  {
    if i == 0 then tree[i].parent == 0 && tree[i].depth == 0 && tree[i].link == Root && tree[i].manifest in repo.manifests.Values
    else
      && tree[i].parent < i
      && tree[i].depth == tree[tree[i].parent].depth + 1
      && Attaches(repo, tree[tree[i].parent].manifest, CandidateOf(tree[i]), tree[i].manifest)
  }

  function CandidateOf(n: Node): Candidate {
    Candidate(if n.link == Tagged then ByTag(n.tag) else ByDigest(n.manifest.digest), n.link, n.tag)
  }

  /** A node is listed once by its parent: with the children of the index, or
      with the referrers. */
  predicate ListedBy(tree: seq<Node>, i: nat, k: nat)
    requires i < |tree|
  {
    && (k in tree[i].children <==> 0 < k < |tree| && tree[k].parent == i && tree[k].link == Index)
    && (k in tree[i].referrers <==> 0 < k < |tree| && tree[k].parent == i && tree[k].link != Index)
  }

  ghost predicate AllListed(tree: seq<Node>) {
    && (forall i :: 0 < i < |tree| ==> tree[i].parent < i)
    && (forall i, k: nat :: 0 <= i < |tree| ==> ListedBy(tree, i, k))
  }

  predicate ByDepth(tree: seq<Node>) {
    && (forall i :: 0 <= i < |tree| ==> tree[i].depth <= MAX_DEPTH)
    && (forall i, j :: 0 <= i < j < |tree| ==> tree[i].depth <= tree[j].depth)
  }

  ghost predicate AllDescend(repo: Repository, tree: seq<Node>) {
    forall i :: 0 <= i < |tree| ==> Descends(repo, tree, i)
  }

  ghost predicate TreeOk(repo: Repository, tree: seq<Node>) {
    0 < |tree| <= MAX_NODES && DistinctDigests(tree) && AllDescend(repo, tree) && ByDepth(tree) && AllListed(tree)
  }

  /** The candidate, if it can be fetched, is in the tree, no deeper than one level
      below the node at position i. */
  predicate Found(repo: Repository, tree: seq<Node>, i: nat, c: Candidate)
    requires i < |tree|
  {
    c.ref in repo.manifests ==>
      exists k :: 0 <= k < |tree| && tree[k].manifest == repo.manifests[c.ref] && tree[k].depth <= tree[i].depth + 1
  }

  predicate IsCut(n: Node) { n.truncated || n.err }

  /** Everything attached to the node at position i was found, unless it is cut. */
  predicate Finished(repo: Repository, tree: seq<Node>, i: nat)
    requires i < |tree|
  {
    IsCut(tree[i]) || forall c :: c in AttachedTo(repo, tree[i].manifest) ==> Found(repo, tree, i, c)
  }

  /** more is tree with nodes added, and nothing else but lists and marks of the
      nodes changed; no mark was taken back. */
  predicate Grows(tree: seq<Node>, more: seq<Node>) {
    && |tree| <= |more|
    && forall i :: 0 <= i < |tree| ==>
         && more[i].manifest == tree[i].manifest && more[i].link == tree[i].link && more[i].tag == tree[i].tag
         && more[i].parent == tree[i].parent && more[i].depth == tree[i].depth
         && (IsCut(tree[i]) ==> IsCut(more[i]))
  }

  lemma {:induction false} FoundGrows(repo: Repository, tree: seq<Node>, more: seq<Node>, i: nat, c: Candidate)
    requires Grows(tree, more) && i < |tree| && Found(repo, tree, i, c)
    ensures Found(repo, more, i, c)
  {
    if c.ref in repo.manifests {
      var k :| 0 <= k < |tree| && tree[k].manifest == repo.manifests[c.ref] && tree[k].depth <= tree[i].depth + 1;
      assert more[k].manifest == tree[k].manifest;
    }
  }

  lemma {:induction false} FinishedGrows(repo: Repository, tree: seq<Node>, more: seq<Node>, i: nat)
    requires Grows(tree, more) && i < |tree| && Finished(repo, tree, i)
    ensures Finished(repo, more, i)
  {
    if !IsCut(more[i]) {
      forall c | c in AttachedTo(repo, more[i].manifest) ensures Found(repo, more, i, c) {
        FoundGrows(repo, tree, more, i, c);
      }
    }
  }

  /** The tree with one more node, that its parent lists. */
  function WithNode(tree: seq<Node>, parent: nat, m: Manifest, c: Candidate): seq<Node>
    requires parent < |tree|
  {
    var p, k := tree[parent], |tree|;
    var listing := if c.link == Index then p.(children := p.children + [k]) else p.(referrers := p.referrers + [k]);
    tree[parent := listing] + [Node(m, c.link, c.tag, parent, p.depth + 1, [], [], false, false)]
  }

  lemma {:induction false} CandidatesAre(repo: Repository, m: Manifest, c: Candidate)
    requires c in AttachedTo(repo, m)
    ensures c.link != Root && (c.link == Tagged <==> c.ref.ByTag?)
    ensures c.ref == if c.link == Tagged then ByTag(c.tag) else c.ref
    ensures c.link != Tagged ==> c.tag == ""
  {
  }

  /** Adding a manifest that was not fetched yet, attached to a node of the
      current or the last level, keeps the tree. */
  lemma {:induction false} NodeKeeps(repo: Repository, tree: seq<Node>, parent: nat, c: Candidate)
    requires Consistent(repo) && TreeOk(repo, tree) && parent < |tree| < MAX_NODES && tree[parent].depth < MAX_DEPTH
    requires forall i :: 0 <= i < |tree| ==> tree[i].depth <= tree[parent].depth + 1
    requires c in AttachedTo(repo, tree[parent].manifest) && c.ref in repo.manifests
    requires !IsFetched(tree, repo.manifests[c.ref].digest)
    ensures var more := WithNode(tree, parent, repo.manifests[c.ref], c);
            TreeOk(repo, more) && Grows(tree, more) && Found(repo, more, parent, c)
  {
    var more, n := WithNode(tree, parent, repo.manifests[c.ref], c), |tree|;
    NodeGrows(tree, parent, repo.manifests[c.ref], c);
    NodeDescends(repo, tree, parent, c);
    NodeListed(tree, parent, repo.manifests[c.ref], c);
    forall i, j | 0 <= i < j < |more| ensures more[i].manifest.digest != more[j].manifest.digest {
      assert more[i].manifest == tree[i].manifest;
      if j < n {
        assert more[j].manifest == tree[j].manifest;
      } else {
        assert tree[i].manifest.digest != repo.manifests[c.ref].digest;
      }
    }
    assert more[n].manifest == repo.manifests[c.ref];
  }

  lemma {:induction false} NodeGrows(tree: seq<Node>, parent: nat, m: Manifest, c: Candidate)
    requires parent < |tree|
    ensures var more := WithNode(tree, parent, m, c);
            && Grows(tree, more) && |more| == |tree| + 1
            && more[|tree|] == Node(m, c.link, c.tag, parent, tree[parent].depth + 1, [], [], false, false)
  {
  }

  lemma {:induction false} NodeDescends(repo: Repository, tree: seq<Node>, parent: nat, c: Candidate)
    requires Consistent(repo) && AllDescend(repo, tree) && parent < |tree|
    requires c in AttachedTo(repo, tree[parent].manifest) && c.ref in repo.manifests
    ensures AllDescend(repo, WithNode(tree, parent, repo.manifests[c.ref], c))
  {
    var more, n := WithNode(tree, parent, repo.manifests[c.ref], c), |tree|;
    NodeGrows(tree, parent, repo.manifests[c.ref], c);
    CandidatesAre(repo, tree[parent].manifest, c);
    assert CandidateOf(more[n]) == c;
    forall i | 0 <= i < n ensures Descends(repo, more, i) {
      assert Descends(repo, tree, i);
      assert CandidateOf(more[i]) == CandidateOf(tree[i]);
    }
    assert Attaches(repo, more[parent].manifest, c, more[n].manifest);
  }

  lemma {:induction false} NodeListed(tree: seq<Node>, parent: nat, m: Manifest, c: Candidate)
    requires parent < |tree| && AllListed(tree)
    ensures AllListed(WithNode(tree, parent, m, c))
  {
    var more, n := WithNode(tree, parent, m, c), |tree|;
    NodeGrows(tree, parent, m, c);
    forall i, k: nat | 0 <= i < |more| ensures ListedBy(more, i, k) {
      if i < n {
        assert ListedBy(tree, i, k);
      }
    }
  }

  // -------------------------------------------------------------------- order

  function DescriptorAt(tree: seq<Node>, k: nat): Descriptor {
    if k < |tree| then Descriptor(tree[k].manifest.digest, tree[k].manifest.created) else Descriptor("", "")
  }

  function CreatedFirst(tree: seq<Node>): (nat, nat) -> bool {
    (a: nat, b: nat) => OlderFirst(DescriptorAt(tree, a), DescriptorAt(tree, b))
  }

  lemma {:induction false} OlderFirstIsTotal()
    ensures TotalPreorder(OlderFirst)
  {
    forall a, b ensures OlderFirst(a, b) || OlderFirst(b, a) {
      CompareReverses(a.created, b.created);
      CompareReverses(a.digest, b.digest);
    }
    forall a, b, c | OlderFirst(a, b) && OlderFirst(b, c) ensures OlderFirst(a, c) {
      OlderFirstIsTransitive(a, b, c);
    }
  }

  lemma {:induction false} OlderFirstIsTransitive(a: Descriptor, b: Descriptor, c: Descriptor)
    requires OlderFirst(a, b) && OlderFirst(b, c)
    ensures OlderFirst(a, c)
  {
    if a.created == b.created == c.created {
      CompareIsTransitive(a.digest, b.digest, c.digest);
    } else {
      CompareIsZeroIff(a.created, b.created);
      CompareIsZeroIff(b.created, c.created);
      CompareIsTransitive(a.created, b.created, c.created);
      if a.created == c.created {
        CompareReverses(a.created, b.created);
      }
    }
  }

  /** The referrers of the node at position i are listed oldest first. */
  predicate InOrder(tree: seq<Node>, i: nat)
    requires i < |tree|
  {
    var r := tree[i].referrers;
    forall a, b :: 0 <= a < b < |r| ==> OlderFirst(DescriptorAt(tree, r[a]), DescriptorAt(tree, r[b]))
  }

  function Ordered(tree: seq<Node>, i: nat): seq<Node>
    requires i < |tree|
  {
    tree[i := tree[i].(referrers := SortBy(tree[i].referrers, CreatedFirst(tree)))]
  }

  /** more is tree with other marks, or its lists in another order. */
  predicate Reshaped(tree: seq<Node>, more: seq<Node>) {
    && |more| == |tree|
    && forall i :: 0 <= i < |tree| ==>
         && more[i].manifest == tree[i].manifest && more[i].link == tree[i].link && more[i].tag == tree[i].tag
         && more[i].parent == tree[i].parent && more[i].depth == tree[i].depth
  }

  ghost predicate SameLists(tree: seq<Node>, more: seq<Node>)
    requires |more| == |tree|
  {
    forall i, k: nat :: 0 <= i < |tree| ==>
      (k in more[i].children <==> k in tree[i].children) && (k in more[i].referrers <==> k in tree[i].referrers)
  }

  lemma {:induction false} ReshapedKeeps(repo: Repository, tree: seq<Node>, more: seq<Node>)
    requires TreeOk(repo, tree) && Reshaped(tree, more) && SameLists(tree, more)
    ensures TreeOk(repo, more)
  {
    ReshapedDescends(repo, tree, more);
    ReshapedListed(tree, more);
  }

  lemma {:induction false} ReshapedDescends(repo: Repository, tree: seq<Node>, more: seq<Node>)
    requires AllDescend(repo, tree) && Reshaped(tree, more)
    ensures AllDescend(repo, more)
  {
    forall j | 0 <= j < |more| ensures Descends(repo, more, j) {
      assert Descends(repo, tree, j) && CandidateOf(more[j]) == CandidateOf(tree[j]);
    }
  }

  lemma {:induction false} ReshapedListed(tree: seq<Node>, more: seq<Node>)
    requires AllListed(tree) && Reshaped(tree, more) && SameLists(tree, more)
    ensures AllListed(more)
  {
    forall j, k: nat | 0 <= j < |more| ensures ListedBy(more, j, k) {
      assert ListedBy(tree, j, k);
    }
  }

  lemma {:induction false} OrderKeeps(repo: Repository, tree: seq<Node>, i: nat)
    requires TreeOk(repo, tree) && i < |tree|
    ensures TreeOk(repo, Ordered(tree, i)) && Grows(tree, Ordered(tree, i)) && InOrder(Ordered(tree, i), i)
  {
    OlderFirstIsTotal();
    SortSorts(tree[i].referrers, CreatedFirst(tree));
    assert SameLists(tree, Ordered(tree, i));
    ReshapedKeeps(repo, tree, Ordered(tree, i));
    SortedIsInOrder(tree, i);
  }

  lemma {:induction false} SortedIsInOrder(tree: seq<Node>, i: nat)
    requires i < |tree| && SortedBy(SortBy(tree[i].referrers, CreatedFirst(tree)), CreatedFirst(tree))
    ensures InOrder(Ordered(tree, i), i)
  {
    var r := SortBy(tree[i].referrers, CreatedFirst(tree));
    forall a, b | 0 <= a < b < |r| ensures OlderFirst(DescriptorAt(Ordered(tree, i), r[a]), DescriptorAt(Ordered(tree, i), r[b])) {
      assert CreatedFirst(tree)(r[a], r[b]);
      assert DescriptorAt(Ordered(tree, i), r[a]) == DescriptorAt(tree, r[a]);
      assert DescriptorAt(Ordered(tree, i), r[b]) == DescriptorAt(tree, r[b]);
    }
  }

  /** Marks on a node are no part of the tree. */
  lemma {:induction false} MarkKeeps(repo: Repository, tree: seq<Node>, i: nat, truncated: bool, err: bool)
    requires TreeOk(repo, tree) && i < |tree|
    requires (tree[i].truncated ==> truncated) && (tree[i].err ==> err)
    ensures var more := tree[i := tree[i].(truncated := truncated, err := err)]; TreeOk(repo, more) && Grows(tree, more)
  {
    ReshapedKeeps(repo, tree, tree[i := tree[i].(truncated := truncated, err := err)]);
  }

  // --------------------------------------------------------- implementation

  datatype Queued = Queued(node: nat, depth: nat)

  /** The queue holds the nodes from position head on, with their depths. */
  predicate IsQueue(tree: seq<Node>, head: nat, queue: seq<Queued>) {
    && head + |queue| == |tree|
    && forall j :: 0 <= j < |queue| ==> queue[j] == Queued(head + j, tree[head + j].depth)
  }

  lemma {:induction false} AllFoundGrow(repo: Repository, tree: seq<Node>, more: seq<Node>, i: nat, candidates: seq<Candidate>, n: nat)
    requires Grows(tree, more) && i < |tree| && n < |candidates|
    requires IsCut(tree[i]) || forall k :: 0 <= k < n ==> Found(repo, tree, i, candidates[k])
    requires IsCut(more[i]) || Found(repo, more, i, candidates[n])
    ensures IsCut(more[i]) || forall k :: 0 <= k < n + 1 ==> Found(repo, more, i, candidates[k])
  {
    if !IsCut(more[i]) {
      forall k | 0 <= k < n ensures Found(repo, more, i, candidates[k]) {
        FoundGrows(repo, tree, more, i, candidates[k]);
      }
    }
  }

  /** The nodes before head are finished, and no other has referrers yet. */
  predicate AllVisited(repo: Repository, tree: seq<Node>, head: nat)
    requires head <= |tree|
  {
    && (forall i :: 0 <= i < head ==> Finished(repo, tree, i) && InOrder(tree, i))
    && (forall i :: head <= i < |tree| ==> tree[i].referrers == [])
  }

  /** What was finished and in order before a visit still is. */
  lemma {:induction false} VisitKeeps(repo: Repository, was: seq<Node>, mid: seq<Node>, tree: seq<Node>, head: nat)
    requires head < |was| && AllVisited(repo, was, head) && AllListed(was)
    requires Visiting(was, mid, head) && Finished(repo, mid, head) && tree == Ordered(mid, head) && InOrder(tree, head)
    ensures AllVisited(repo, tree, head + 1) && Grows(was, tree)
  {
    assert Grows(mid, tree);
    forall i | 0 <= i < head + 1 ensures Finished(repo, tree, i) && InOrder(tree, i) {
      if i < head {
        FinishedGrows(repo, was, mid, i);
        OrderStays(was, tree, i);
      }
      FinishedGrows(repo, mid, tree, i);
    }
  }

  lemma {:induction false} GrowsOn(a: seq<Node>, b: seq<Node>, c: seq<Node>)
    requires Grows(a, b) && Grows(b, c)
    ensures Grows(a, c)
  {
  }

  lemma {:induction false} QueueStays(mid: seq<Node>, tree: seq<Node>, head: nat, queue: seq<Queued>)
    requires head < |mid| && tree == Ordered(mid, head) && IsQueue(mid, head + 1, queue) && NoDeeper(mid, head)
    ensures IsQueue(tree, head + 1, queue) && NoDeeper(tree, head)
  {
  }

  lemma {:induction false} DeeperNext(tree: seq<Node>, head: nat)
    requires head < |tree| && ByDepth(tree) && NoDeeper(tree, head)
    ensures head + 1 < |tree| ==> NoDeeper(tree, head + 1)
  {
  }

  lemma {:induction false} OrderStays(tree: seq<Node>, more: seq<Node>, i: nat)
    requires i < |tree| && |tree| <= |more| && more[i].referrers == tree[i].referrers && InOrder(tree, i) && AllListed(tree)
    requires forall j :: 0 <= j < |tree| ==> more[j].manifest == tree[j].manifest
    ensures InOrder(more, i)
  {
    var r := tree[i].referrers;
    forall a, b | 0 <= a < b < |r| ensures OlderFirst(DescriptorAt(more, r[a]), DescriptorAt(more, r[b])) {
      assert ListedBy(tree, i, r[a]) && ListedBy(tree, i, r[b]);
    }
  }

  /** No node is deeper than one level below the node at position i. */
  predicate NoDeeper(tree: seq<Node>, i: nat)
    requires i < |tree|
  {
    forall j :: 0 <= j < |tree| ==> tree[j].depth <= tree[i].depth + 1
  }

  /** more is tree as the node at position i is visited. */
  predicate Visiting(tree: seq<Node>, more: seq<Node>, i: nat) {
    && Grows(tree, more) && SameOthers(tree, more, i)
    && forall j :: |tree| <= j < |more| ==> more[j].referrers == []
  }

  lemma {:induction false} VisitingOn(a: seq<Node>, b: seq<Node>, c: seq<Node>, i: nat)
    requires i < |a| && Visiting(a, b, i) && Visiting(b, c, i)
    ensures Visiting(a, c, i)
  {
  }

  /** Every node but i has the referrers it had. */
  predicate SameOthers(tree: seq<Node>, more: seq<Node>, i: nat) {
    |tree| <= |more| && forall j :: 0 <= j < |tree| && j != i ==> more[j].referrers == tree[j].referrers
  }

  /** Walks a repository breadth first. */
  class Walker {
    const repo: Repository
    var seen: set<string>
    var nodes: nat
    var tree: seq<Node>

    constructor (repo: Repository, root: Manifest)
      requires Consistent(repo) && root in repo.manifests.Values
      ensures Valid() && this.repo == repo
      ensures tree == [Node(root, Root, "", 0, 0, [], [], false, repo.tagsUnlisted)]
    {
      this.repo, seen, nodes := repo, {root.digest}, 1;
      tree := [Node(root, Root, "", 0, 0, [], [], false, repo.tagsUnlisted)];
      new;
      assert forall k: nat :: ListedBy(tree, 0, k);
    }

    ghost predicate Valid()
      reads this
    {
      Consistent(repo) && TreeOk(repo, tree) && nodes == |tree| && forall d :: d in seen <==> IsFetched(tree, d)
    }

    /** Marks the node at position i. */
    method Mark(i: nat, truncated: bool, err: bool)
      requires Valid() && i < |tree| && (tree[i].truncated ==> truncated) && (tree[i].err ==> err)
      modifies this`tree
      ensures Valid() && tree == old(tree)[i := old(tree)[i].(truncated := truncated, err := err)]
      ensures Visiting(old(tree), tree, i)
    {
      MarkKeeps(repo, tree, i, truncated, err);
      tree := tree[i := tree[i].(truncated := truncated, err := err)];
      SameFetched(old(tree), tree);
    }

    /** Attaches a manifest that was fetched for the first time to parent. */
    method Attach(parent: nat, c: Candidate)
      requires Valid() && parent < |tree| < MAX_NODES && tree[parent].depth < MAX_DEPTH && NoDeeper(tree, parent)
      requires c in AttachedTo(repo, tree[parent].manifest)
      requires c.ref in repo.manifests && repo.manifests[c.ref].digest !in seen
      modifies this
      ensures Valid() && Visiting(old(tree), tree, parent)
      ensures |tree| == |old(tree)| + 1 && tree[|old(tree)|].depth == tree[parent].depth + 1
      ensures Found(repo, tree, parent, c)
    {
      var manifest := repo.manifests[c.ref];
      seen := seen + {manifest.digest};
      nodes := nodes + 1;
      NodeKeeps(repo, tree, parent, c);
      tree := WithNode(tree, parent, manifest, c);
      NodeGrows(old(tree), parent, manifest, c);
      OneMoreFetched(old(tree), parent, manifest, c);
    }

    /** Collects what is attached to the node at position i, and marks it when its
        referrers cannot be listed. */
    method Attached(i: nat) returns (candidates: seq<Candidate>)
      requires Valid() && i < |tree|
      modifies this`tree
      ensures Valid() && Visiting(old(tree), tree, i) && |tree| == |old(tree)|
      ensures candidates == AttachedTo(repo, tree[i].manifest)
      ensures tree[i].manifest.digest in repo.unlisted ==> tree[i].err
    {
      var m := tree[i].manifest;
      candidates := [];
      for j := 0 to |m.manifests|
        invariant candidates == ChildrenOf(m)[..j]
      {
        candidates := candidates + [Candidate(ByDigest(m.manifests[j]), Index, "")];
      }

      var referrers := Listed(repo, m.digest);
      var listed := [];
      for j := 0 to |referrers|
        invariant listed == ReferrersOf(referrers)[..j]
      {
        listed := listed + [Candidate(ByDigest(referrers[j].digest), Subject, "")];
      }
      var tags := CosignTags(repo, m.digest, |SUFFIXES|);
      candidates := candidates + listed + TaggedOf(tags);
      if m.digest in repo.unlisted {
        Mark(i, tree[i].truncated, true);
      }
    }

    /** Fetches the candidate and attaches it to parent, unless it was fetched
        before or cannot be. */
    method Add(parent: nat, c: Candidate) returns (added: bool)
      requires Valid() && parent < |tree| < MAX_NODES && tree[parent].depth < MAX_DEPTH && NoDeeper(tree, parent)
      requires c in AttachedTo(repo, tree[parent].manifest)
      modifies this
      ensures Valid() && Visiting(old(tree), tree, parent)
      ensures |tree| == |old(tree)| + if added then 1 else 0
      ensures added ==> tree[|old(tree)|].depth == tree[parent].depth + 1
      ensures IsCut(tree[parent]) || Found(repo, tree, parent, c)
    {
      if c.ref.ByDigest? && c.ref.digest != "" && c.ref.digest in seen {
        SeenIsFound(repo, tree, parent, c);
        return false;
      }
      if c.ref !in repo.manifests {
        Mark(parent, tree[parent].truncated, true);
        return false;
      }
      var manifest := repo.manifests[c.ref];
      if manifest.digest in seen {
        FetchedIsFound(repo, tree, parent, c);
        return false;
      }
      Attach(parent, c);
      return true;
    }

    /** Takes one candidate of the node at position i, unless a limit is reached,
        and queues it when it is new. */
    method Consider(i: nat, c: Candidate, queue: seq<Queued>) returns (full: bool, more: seq<Queued>)
      requires Valid() && i < |tree| && IsQueue(tree, i + 1, queue) && NoDeeper(tree, i)
      requires c in AttachedTo(repo, tree[i].manifest)
      modifies this
      ensures Valid() && Visiting(old(tree), tree, i) && IsQueue(tree, i + 1, more) && NoDeeper(tree, i)
      ensures full ==> IsCut(tree[i])
      ensures IsCut(tree[i]) || Found(repo, tree, i, c)
    {
      if tree[i].depth >= MAX_DEPTH || nodes >= MAX_NODES {
        Mark(i, true, tree[i].err);
        return true, queue;
      }
      var added := Add(i, c);
      more := queue;
      if added {
        more := queue + [Queued(|tree| - 1, tree[i].depth + 1)];
      }
      return false, more;
    }

    /** Fetches what is attached to the node at position i, up to the limits. */
    method Visit(i: nat, queue: seq<Queued>) returns (more: seq<Queued>)
      requires Valid() && i < |tree| && IsQueue(tree, i + 1, queue) && NoDeeper(tree, i)
      modifies this
      ensures Valid() && Visiting(old(tree), tree, i) && IsQueue(tree, i + 1, more) && NoDeeper(tree, i)
      ensures Finished(repo, tree, i)
    {
      more := queue;
      var candidates := Attached(i);
      for j := 0 to |candidates|
        invariant Valid() && Visiting(old(tree), tree, i) && IsQueue(tree, i + 1, more) && NoDeeper(tree, i)
        invariant candidates == AttachedTo(repo, tree[i].manifest)
        invariant IsCut(tree[i]) || forall k :: 0 <= k < j ==> Found(repo, tree, i, candidates[k])
      {
        ghost var was := tree;
        var full;
        assert candidates[j] in candidates;
        full, more := Consider(i, candidates[j], more);
        VisitingOn(old(tree), was, tree, i);
        AllFoundGrow(repo, was, tree, i, candidates, j);
        if full {
          return;
        }
      }
    }

    /** The nodes before head are visited, and the others queued. */
    ghost predicate Walked(head: nat, queue: seq<Queued>)
      reads this
    {
      && Valid() && head <= |tree| && IsQueue(tree, head, queue) && AllVisited(repo, tree, head)
      && (head < |tree| ==> NoDeeper(tree, head))
    }

    /** Visits the node at position head, which is next, and orders its referrers. */
    method VisitNext(ghost head: nat, queue: seq<Queued>) returns (more: seq<Queued>)
      requires Walked(head, queue) && |queue| > 0
      modifies this
      ensures Walked(head + 1, more) && Grows(old(tree), tree)
    {
      var next := queue[0];
      assert next.node == head && IsQueue(tree, head + 1, queue[1..]);
      more := Visit(next.node, queue[1..]);
      ghost var mid := tree;
      SortReferrers(next.node);
      VisitKeeps(repo, old(tree), mid, tree, head);
      QueueStays(mid, tree, head, more);
      DeeperNext(tree, head);
    }

    /** Visits the nodes in the order in which they were fetched. */
    method Walk()
      requires Valid() && |tree| == 1 && tree[0].referrers == []
      modifies this
      ensures Valid() && Grows(old(tree), tree)
      ensures forall i :: 0 <= i < |tree| ==> Finished(repo, tree, i) && InOrder(tree, i)
    {
      assert Descends(repo, tree, 0);
      var queue := [Queued(0, 0)];
      ghost var head := 0;
      while |queue| > 0
        invariant Walked(head, queue) && Grows(old(tree), tree)
        decreases MAX_NODES - head
      {
        ghost var was := tree;
        queue := VisitNext(head, queue);
        GrowsOn(old(tree), was, tree);
        head := head + 1;
      }
    }

    /** Registries need not repeat annotations in the referrers list, so that the
        fetched manifests decide the order. */
    method SortReferrers(i: nat)
      requires Valid() && i < |tree|
      modifies this`tree
      ensures Valid() && tree == Ordered(old(tree), i) && InOrder(tree, i)
    {
      OrderKeeps(repo, tree, i);
      tree := tree[i := tree[i].(referrers := SortBy(tree[i].referrers, CreatedFirst(tree)))];
      SameFetched(old(tree), tree);
    }
  }

  lemma {:induction false} SameFetched(tree: seq<Node>, more: seq<Node>)
    requires Grows(tree, more) && |more| == |tree|
    ensures forall d :: IsFetched(more, d) <==> IsFetched(tree, d)
  {
    forall d ensures IsFetched(more, d) <==> IsFetched(tree, d) {
      if IsFetched(more, d) {
        var i :| 0 <= i < |more| && more[i].manifest.digest == d;
        assert tree[i].manifest == more[i].manifest;
      }
      if IsFetched(tree, d) {
        var i :| 0 <= i < |tree| && tree[i].manifest.digest == d;
        assert tree[i].manifest == more[i].manifest;
      }
    }
  }

  lemma {:induction false} OneMoreFetched(tree: seq<Node>, parent: nat, m: Manifest, c: Candidate)
    requires parent < |tree|
    ensures forall d :: IsFetched(WithNode(tree, parent, m, c), d) <==> IsFetched(tree, d) || d == m.digest
  {
    var more, n := WithNode(tree, parent, m, c), |tree|;
    NodeGrows(tree, parent, m, c);
    assert more[n].manifest == m;
    forall d ensures IsFetched(more, d) <==> IsFetched(tree, d) || d == m.digest {
      if IsFetched(tree, d) {
        var i :| 0 <= i < n && tree[i].manifest.digest == d;
        assert more[i].manifest == tree[i].manifest;
      }
      if IsFetched(more, d) && d != m.digest {
        var i :| 0 <= i < |more| && more[i].manifest.digest == d;
        assert tree[i].manifest == more[i].manifest;
      }
    }
  }

  /** The manifests in the tree are those of the repository. */
  lemma {:induction false} FetchedIsFound(repo: Repository, tree: seq<Node>, parent: nat, c: Candidate)
    requires Consistent(repo) && AllDescend(repo, tree) && parent < |tree|
    requires forall i :: 0 <= i < |tree| ==> tree[i].depth <= tree[parent].depth + 1
    requires c.ref in repo.manifests && IsFetched(tree, repo.manifests[c.ref].digest)
    ensures Found(repo, tree, parent, c)
  {
    var k :| 0 <= k < |tree| && tree[k].manifest.digest == repo.manifests[c.ref].digest;
    assert Descends(repo, tree, k);
  }

  lemma {:induction false} SeenIsFound(repo: Repository, tree: seq<Node>, parent: nat, c: Candidate)
    requires Consistent(repo) && AllDescend(repo, tree) && parent < |tree|
    requires forall i :: 0 <= i < |tree| ==> tree[i].depth <= tree[parent].depth + 1
    requires c.ref.ByDigest? && IsFetched(tree, c.ref.digest)
    ensures Found(repo, tree, parent, c)
  {
    if c.ref in repo.manifests {
      FetchedIsFound(repo, tree, parent, c);
    }
  }

  // ------------------------------------------------------ what the walk returns

  /** The graph of the artifact at ref, in the order in which it was fetched. */
  method WalkFrom(repo: Repository, ref: Ref) returns (fetched: bool, tree: seq<Node>)
    requires Consistent(repo)
    ensures fetched == (ref in repo.manifests)
    ensures fetched ==> TreeOk(repo, tree) && tree[0].manifest == repo.manifests[ref]
    ensures fetched ==> forall i :: 0 <= i < |tree| ==> Finished(repo, tree, i) && InOrder(tree, i)
    ensures fetched ==> repo.tagsUnlisted ==> IsCut(tree[0])
  {
    if ref !in repo.manifests {
      return false, [];
    }
    var walker := new Walker(repo, repo.manifests[ref]);
    walker.Walk();
    return true, walker.tree;
  }

  predicate Complete(tree: seq<Node>) {
    forall i :: 0 <= i < |tree| ==> !IsCut(tree[i])
  }

  /** Every node is reached from the root in as many steps as it is deep. */
  lemma {:induction false} PathTo(repo: Repository, tree: seq<Node>, i: nat) returns (path: seq<Manifest>)
    requires AllDescend(repo, tree) && i < |tree|
    ensures Reaches(repo, tree[0].manifest, tree[i].manifest, path) && |path| == tree[i].depth + 1
  {
    assert Descends(repo, tree, i);
    if i == 0 {
      path := [tree[0].manifest];
    } else {
      var front := PathTo(repo, tree, tree[i].parent);
      path := front + [tree[i].manifest];
      assert IsAttached(repo, tree[tree[i].parent].manifest, tree[i].manifest);
      forall k | 0 <= k < |path| - 1 ensures IsAttached(repo, path[k], path[k + 1]) {
        assert k < |front| - 1 ==> IsAttached(repo, front[k], front[k + 1]);
      }
    }
  }

  /** With nothing cut, whatever is reached from the root is in the tree, no
      deeper than it takes steps. */
  lemma {:induction false} ReachedIsFound(repo: Repository, tree: seq<Node>, path: seq<Manifest>, j: nat) returns (k: nat)
    requires TreeOk(repo, tree) && Complete(tree) && forall i :: 0 <= i < |tree| ==> Finished(repo, tree, i)
    requires IsPath(repo, path) && j < |path| && path[0] == tree[0].manifest
    ensures k < |tree| && tree[k].manifest == path[j] && tree[k].depth <= j
  {
    assert Descends(repo, tree, 0);
    if j == 0 {
      k := 0;
    } else {
      var i := ReachedIsFound(repo, tree, path, j - 1);
      assert IsAttached(repo, path[j - 1], path[j - 1 + 1]);
      var c :| Attaches(repo, path[j - 1], c, path[j]);
      assert Finished(repo, tree, i) && Found(repo, tree, i, c);
      k :| 0 <= k < |tree| && tree[k].manifest == repo.manifests[c.ref] && tree[k].depth <= tree[i].depth + 1;
    }
  }

  /** When no node is cut by a limit or an error, the tree holds exactly the
      manifests that are reached from the root, each at its shortest distance. */
  lemma {:induction false} TreeIsReachable(repo: Repository, tree: seq<Node>, m: Manifest)
    requires TreeOk(repo, tree) && Complete(tree) && forall i :: 0 <= i < |tree| ==> Finished(repo, tree, i)
    ensures (exists path :: Reaches(repo, tree[0].manifest, m, path)) <==> exists i :: 0 <= i < |tree| && tree[i].manifest == m
    ensures forall i, path :: 0 <= i < |tree| && tree[i].manifest == m && Reaches(repo, tree[0].manifest, m, path) ==>
              tree[i].depth <= |path| - 1
    ensures forall i :: 0 <= i < |tree| && tree[i].manifest == m ==>
              exists path :: Reaches(repo, tree[0].manifest, m, path) && |path| == tree[i].depth + 1
  {
    forall i | 0 <= i < |tree| && tree[i].manifest == m
      ensures exists path :: Reaches(repo, tree[0].manifest, m, path) && |path| == tree[i].depth + 1
    {
      var path := PathTo(repo, tree, i);
    }
    forall path | Reaches(repo, tree[0].manifest, m, path)
      ensures exists i :: 0 <= i < |tree| && tree[i].manifest == m && tree[i].depth <= |path| - 1
    {
      var k := ReachedIsFound(repo, tree, path, |path| - 1);
    }
  }

  // ---------------------------------------------------------------- referrers

  /** The referrers of a digest, where they can be listed, are the manifests with
      that subject, and every manifest can be fetched by its digest: "Listing
      Referrers" in the OCI Distribution Specification v1.1. */
  ghost predicate ListsSubjects(repo: Repository) {
    forall m :: m in repo.manifests.Values ==> IsFetchable(repo, m) && forall d :: d !in repo.unlisted ==> IsListedRight(repo, d, m)
  }

  predicate IsFetchable(repo: Repository, m: Manifest) { ByDigest(m.digest) in repo.manifests }

  ghost predicate IsListedRight(repo: Repository, d: string, m: Manifest) {
    m.subject == Some(d) <==> Lists(repo, d, m.digest)
  }

  ghost predicate Lists(repo: Repository, d: string, digest: string) {
    d in repo.referrers && exists x :: x in repo.referrers[d] && x.digest == digest
  }

  ghost predicate IsReferrer(repo: Repository, m: Manifest, n: Manifest) {
    exists c: Candidate :: c.link == Subject && Attaches(repo, m, c, n)
  }

  lemma {:induction false} ListedHasAll(repo: Repository, d: string, x: Descriptor)
    ensures x in Listed(repo, d) <==> d in repo.referrers && x in repo.referrers[d]
  {
    if d in repo.referrers {
      OlderFirstIsTotal();
      SortSorts(repo.referrers[d], OlderFirst);
      SameElements(repo.referrers[d], SortBy(repo.referrers[d], OlderFirst));
    }
  }

  lemma {:induction false} AttachedAsReferrer(repo: Repository, m: Manifest, c: Candidate) returns (x: Descriptor)
    requires c in AttachedTo(repo, m) && c.link == Subject
    ensures m.digest in repo.referrers && x in repo.referrers[m.digest] && c == Candidate(ByDigest(x.digest), Subject, "")
  {
    var listed := Listed(repo, m.digest);
    assert c in ReferrersOf(listed);
    var i :| 0 <= i < |listed| && ReferrersOf(listed)[i] == c;
    x := listed[i];
    ListedHasAll(repo, m.digest, x);
  }

  lemma {:induction false} ReferrerIsAttached(repo: Repository, m: Manifest, x: Descriptor)
    requires m.digest in repo.referrers && x in repo.referrers[m.digest]
    ensures Candidate(ByDigest(x.digest), Subject, "") in AttachedTo(repo, m)
  {
    var listed := Listed(repo, m.digest);
    ListedHasAll(repo, m.digest, x);
    var i :| 0 <= i < |listed| && listed[i] == x;
    assert ReferrersOf(listed)[i] == Candidate(ByDigest(x.digest), Subject, "");
    assert Candidate(ByDigest(x.digest), Subject, "") in ReferrersOf(listed);
  }

  /** n can be fetched by its digest, and by no other. */
  ghost predicate IsByDigest(repo: Repository, n: Manifest) {
    && ByDigest(n.digest) in repo.manifests && repo.manifests[ByDigest(n.digest)] == n
    && forall r :: r in repo.manifests && r.ByDigest? && repo.manifests[r] == n ==> r.digest == n.digest
  }

  lemma {:induction false} ManifestsAreByDigest(repo: Repository, n: Manifest)
    requires Consistent(repo) && n in repo.manifests.Values && IsFetchable(repo, n)
    ensures IsByDigest(repo, n)
  {
    var r :| r in repo.manifests && repo.manifests[r] == n;
    assert repo.manifests[ByDigest(n.digest)].digest == n.digest;
    assert repo.manifests[ByDigest(n.digest)] == repo.manifests[r];
  }

  lemma {:induction false} ReferrerIffListed(repo: Repository, m: Manifest, n: Manifest)
    requires IsByDigest(repo, n)
    ensures IsReferrer(repo, m, n) <==> Lists(repo, m.digest, n.digest)
  {
    if IsReferrer(repo, m, n) {
      var c: Candidate :| c.link == Subject && Attaches(repo, m, c, n);
      var x := AttachedAsReferrer(repo, m, c);
      assert n.digest == x.digest;
    }
    if Lists(repo, m.digest, n.digest) {
      var x :| x in repo.referrers[m.digest] && x.digest == n.digest;
      ReferrerIsAttached(repo, m, x);
      assert Attaches(repo, m, Candidate(ByDigest(n.digest), Subject, ""), n);
    }
  }

  /** The referrers a walk attaches to a manifest are exactly the manifests whose
      subject it is. */
  lemma {:induction false} ReferrersAreSubjects(repo: Repository, m: Manifest, n: Manifest)
    requires Consistent(repo) && ListsSubjects(repo) && m.digest !in repo.unlisted && n in repo.manifests.Values
    ensures IsReferrer(repo, m, n) <==> n.subject == Some(m.digest)
  {
    assert IsFetchable(repo, n) && IsListedRight(repo, m.digest, n);
    ManifestsAreByDigest(repo, n);
    ReferrerIffListed(repo, m, n);
  }

  /** When no node is cut, every manifest of the repository whose subject is in
      the tree is in it as well, no deeper than one level below. */
  lemma {:induction false} SubjectsAreInTree(repo: Repository, tree: seq<Node>, i: nat, n: Manifest)
    requires Consistent(repo) && ListsSubjects(repo) && Complete(tree)
    requires i < |tree| && Finished(repo, tree, i) && tree[i].manifest.digest !in repo.unlisted
    requires n in repo.manifests.Values && n.subject == Some(tree[i].manifest.digest)
    ensures exists k :: 0 <= k < |tree| && tree[k].manifest == n && tree[k].depth <= tree[i].depth + 1
  {
    var m := tree[i].manifest;
    ReferrersAreSubjects(repo, m, n);
    var c: Candidate :| c.link == Subject && Attaches(repo, m, c, n);
    assert Found(repo, tree, i, c);
  }

  /** The manifests in the tree as referrers have their parent as their subject. */
  lemma {:induction false} ReferrersHaveSubject(repo: Repository, tree: seq<Node>, k: nat)
    requires Consistent(repo) && ListsSubjects(repo) && AllDescend(repo, tree)
    requires 0 < k < |tree| && tree[k].link == Subject && tree[k].parent < k
    requires tree[tree[k].parent].manifest.digest !in repo.unlisted
    ensures tree[k].manifest.subject == Some(tree[tree[k].parent].manifest.digest)
  {
    var m := tree[tree[k].parent].manifest;
    assert Descends(repo, tree, k);
    assert CandidateOf(tree[k]).link == Subject;
    ReferrersAreSubjects(repo, m, tree[k].manifest);
  }
}
