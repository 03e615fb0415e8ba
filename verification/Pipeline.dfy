/** The upstream stages of the Orders of a namespace: internal/promotion/pipeline.go. */
module Pipeline {
  import opened Options

  datatype PipelineOrder = PipelineOrder(product: string, upstreams: seq<string>)

  type Orders = map<string, PipelineOrder>

  datatype Problem =
    | OtherProduct(name: string, product: string, mine: string)
    | Cycle(path: seq<string>)

  // ---------------------------------------------------------- specification

  /** The upstream stages of name, none when there is no such Order. */
  function UpstreamsOf(p: Orders, name: string): seq<string> {
    if name in p then p[name].upstreams else []
  }

  /** Every stage of path runs after the next one. */
  predicate IsPath(p: Orders, path: seq<string>) {
    forall i :: 0 <= i < |path| - 1 ==> path[i + 1] in UpstreamsOf(p, path[i])
  }

  /** path leads from order back to order. */
  predicate IsCycle(p: Orders, order: string, path: seq<string>) {
    |path| >= 2 && path[0] == order && path[|path| - 1] == order && IsPath(p, path)
  }

  predicate Distinct(path: seq<string>) {
    forall i, j :: 0 <= i < j < |path| ==> path[i] != path[j]
  }

  /** path goes on from was back to order, with no stage twice in between. */
  predicate Completes(p: Orders, order: string, was: seq<string>, path: seq<string>) {
    IsCycle(p, order, path) && Distinct(path[..|path| - 1]) && was < path
  }

  /** Every name an Order or an upstream stage has. */
  function Names(p: Orders): set<string> {
    p.Keys + set o, u | o in p && u in p[o].upstreams :: u
  }

  lemma UpstreamIsName(p: Orders, name: string, u: string)
    requires u in UpstreamsOf(p, name)
    ensures u in Names(p)
  {
  }

  /** Neither name nor what was visited leads to order, but through visited. */
  predicate Explored(p: Orders, order: string, visited: set<string>, name: string) {
    forall u :: u in UpstreamsOf(p, name) ==> u in visited && u != order
  }

  /** What was visited since before is explored. */
  predicate NewlyExplored(p: Orders, order: string, before: set<string>, visited: set<string>) {
    forall x :: x in visited - before ==> Explored(p, order, visited, x)
  }

  lemma NewlyGrows(p: Orders, order: string, before: set<string>, mid: set<string>, visited: set<string>)
    requires before <= mid <= visited && NewlyExplored(p, order, before, mid) && NewlyExplored(p, order, mid, visited)
    ensures NewlyExplored(p, order, before, visited)
  {
    forall x | x in visited - before ensures Explored(p, order, visited, x) {
      assert x in mid ==> x in mid - before && Explored(p, order, mid, x);
      assert x !in mid ==> x in visited - mid;
    }
  }

  /** The path goes on to an upstream stage of its last. */
  lemma PathExtends(p: Orders, path: seq<string>, u: string)
    requires path != [] && IsPath(p, path) && u in UpstreamsOf(p, path[|path| - 1])
    ensures IsPath(p, path + [u])
    ensures Distinct(path) && u !in path ==> Distinct(path + [u])
    ensures (path + [u])[..|path|] == path
  {
    assert forall i :: 0 <= i < |path| ==> path[i] in path;
  }

  lemma PathCloses(p: Orders, order: string, path: seq<string>)
    requires path != [] && path[0] == order && IsPath(p, path) && Distinct(path)
    requires order in UpstreamsOf(p, path[|path| - 1])
    ensures Completes(p, order, path, path + [order])
  {
    PathExtends(p, path, order);
  }

  lemma NotOnPath(order: string, path: seq<string>, visited: set<string>, u: string)
    requires path != [] && path[0] == order && (forall i :: 1 <= i < |path| ==> path[i] in visited)
    requires u !in visited && u != order
    ensures u !in path
  {
  }

  // --------------------------------------------------------- implementation

  /** The search for a cycle through order: what it visited, and the path it is
      on. */
  class Search {
    const pipeline: Orders
    const order: string
    var visited: set<string>
    var path: seq<string>

    constructor (pipeline: Orders, order: string)
      ensures this.pipeline == pipeline && this.order == order && visited == {} && path == [order]
    {
      this.pipeline, this.order, visited, path := pipeline, order, {}, [order];
    }

    /** The path is one of upstream stages from order, each of the others
        visited and met once. */
    predicate Valid()
      reads this
    {
      && path != [] && path[0] == order && IsPath(pipeline, path) && Distinct(path)
      && (forall i :: 1 <= i < |path| ==> path[i] in visited)
      && visited <= Names(pipeline) && order !in visited
    }

    /** Walks from name, where the path ends: completes the path back to order,
        or leaves it as it is and finds that nothing it visits leads there. */
    method Walk(name: string) returns (found: bool)
      requires Valid() && path[|path| - 1] == name
      modifies this
      decreases |Names(pipeline) - visited|, 1
      ensures old(visited) <= visited
      ensures found ==> Completes(pipeline, order, old(path), path)
      ensures !found ==> Valid() && path == old(path) && Explored(pipeline, order, visited, name)
      ensures !found ==> NewlyExplored(pipeline, order, old(visited), visited)
    {
      var upstreams := UpstreamsOf(pipeline, name);
      for i := 0 to |upstreams|
        invariant Valid() && path == old(path) && old(visited) <= visited
        invariant forall j :: 0 <= j < i ==> upstreams[j] in visited && upstreams[j] != order
        invariant NewlyExplored(pipeline, order, old(visited), visited)
      {
        var upstream := upstreams[i];
        if upstream == order {
          PathCloses(pipeline, order, path);
          path := path + [upstream];
          return true;
        }
        if upstream in visited {
          continue;
        }
        FewerLeft(Names(pipeline), old(visited), visited);
        ghost var was := visited;
        found := Enter(name, upstream);
        if found {
          return true;
        }
        NewlyGrows(pipeline, order, old(visited), was, visited);
      }
      return false;
    }

    /** Walks on from name to upstream, which was not visited. */
    method Enter(name: string, upstream: string) returns (found: bool)
      requires Valid() && path[|path| - 1] == name
      requires upstream in UpstreamsOf(pipeline, name) && upstream !in visited && upstream != order
      modifies this
      decreases |Names(pipeline) - visited|, 0
      ensures old(visited) + {upstream} <= visited
      ensures found ==> Completes(pipeline, order, old(path), path)
      ensures !found ==> Valid() && path == old(path) && NewlyExplored(pipeline, order, old(visited), visited)
    {
      UpstreamIsName(pipeline, name, upstream);
      Smaller(Names(pipeline), visited, upstream);
      NotOnPath(order, path, visited, upstream);
      PathExtends(pipeline, path, upstream);
      visited := visited + {upstream};
      path := path + [upstream];
      found := Walk(upstream);
      if !found {
        path := path[..|path| - 1];
      }
    }
  }

  lemma Smaller(names: set<string>, visited: set<string>, name: string)
    requires name in names && name !in visited
    ensures |names - (visited + {name})| < |names - visited|
  {
    assert names - visited == names - (visited + {name}) + {name};
  }

  lemma {:induction false} Fewer(a: set<string>, b: set<string>)
    requires a <= b
    ensures |a| <= |b|
  {
    if a != {} {
      var x :| x in a;
      Fewer(a - {x}, b - {x});
    }
  }

  lemma FewerLeft(names: set<string>, was: set<string>, visited: set<string>)
    requires was <= visited
    ensures |names - visited| <= |names - was|
  {
    Fewer(names - visited, names - was);
  }

  /** A path that never leaves what was explored never comes back to order. */
  lemma {:induction false} ExploredStays(p: Orders, order: string, visited: set<string>, path: seq<string>, i: nat)
    requires IsPath(p, path) && i < |path| && path[0] == order
    requires Explored(p, order, visited, order) && forall x :: x in visited ==> Explored(p, order, visited, x)
    ensures i > 0 ==> path[i] in visited && path[i] != order
  {
    if i > 0 {
      ExploredStays(p, order, visited, path, i - 1);
      assert path[i - 1 + 1] in UpstreamsOf(p, path[i - 1]);
    }
  }

  /** Finds a path of upstream stages from order back to order, with no stage
      twice in between, exactly when there is one. */
  method FindCycle(p: Orders, order: string) returns (cycle: Option<seq<string>>)
    ensures cycle.Some? ==> IsCycle(p, order, cycle.value) && Distinct(cycle.value[..|cycle.value| - 1])
    ensures cycle.None? ==> forall path :: !IsCycle(p, order, path)
  {
    var search := new Search(p, order);
    var found := search.Walk(order);
    if found {
      return Some(search.path);
    }
    assert forall x :: x in search.visited ==> x in search.visited - {};
    forall path ensures !IsCycle(p, order, path) {
      if IsCycle(p, order, path) {
        ExploredStays(p, order, search.visited, path, |path| - 1);
      }
    }
    return None;
  }

  predicate OfOtherProduct(p: Orders, order: string, name: string)
    requires order in p
  {
    name in p && p[name].product != p[order].product
  }

  /** What is wrong with the pipeline upstream of order, if anything is. */
  method FindProblem(p: Orders, order: string) returns (problem: Option<Problem>)
    ensures problem.None? <==> !HasProblem(p, order)
    ensures problem.Some? && problem.value.OtherProduct? ==>
              order in p && problem.value.name in p[order].upstreams && OfOtherProduct(p, order, problem.value.name)
    ensures problem.Some? && problem.value.Cycle? ==> IsCycle(p, order, problem.value.path)
  {
    if order !in p {
      return None;
    }
    var self := p[order];
    for i := 0 to |self.upstreams|
      invariant forall j :: 0 <= j < i ==> !OfOtherProduct(p, order, self.upstreams[j])
    {
      var name := self.upstreams[i];
      if name in p && p[name].product != self.product {
        assert OfOtherProduct(p, order, name);
        return Some(OtherProduct(name, p[name].product, self.product));
      }
    }
    var cycle := FindCycle(p, order);
    if cycle.Some? {
      return Some(Cycle(cycle.value));
    }
    return None;
  }

  // ------------------------------------------------------- what no problem means

  /** An upstream Order is a variant of another Product, or a cycle leads back. */
  ghost predicate HasProblem(p: Orders, order: string) {
    order in p && ((exists name :: name in p[order].upstreams && OfOtherProduct(p, order, name)) || exists path :: IsCycle(p, order, path))
  }

  ghost predicate IsValid(p: Orders) {
    forall order :: order in p ==> !HasProblem(p, order)
  }

  lemma CycleAmong(p: Orders, path: seq<string>, i: nat, j: nat)
    requires IsPath(p, path) && i < j < |path| && path[i] == path[j]
    ensures IsCycle(p, path[i], path[i..j + 1])
  {
    var c := path[i..j + 1];
    forall k | 0 <= k < |c| - 1 ensures c[k + 1] in UpstreamsOf(p, c[k]) {
      assert path[i + k + 1] in UpstreamsOf(p, path[i + k]);
    }
  }

  lemma {:induction false} DistinctIsShort(s: set<string>, path: seq<string>)
    requires Distinct(path) && forall i :: 0 <= i < |path| ==> path[i] in s
    ensures |path| <= |s|
  {
    if path != [] {
      var last := path[|path| - 1];
      DistinctIsShort(s - {last}, path[..|path| - 1]);
    }
  }

  /** Without problems the upstream relation is well-founded: no path of upstream
      stages is longer than there are Orders, and one more. */
  lemma ValidIsWellFounded(p: Orders, path: seq<string>)
    requires IsValid(p) && IsPath(p, path)
    ensures |path| <= |p| + 1
  {
    if path != [] {
      var inner := path[..|path| - 1];
      forall i | 0 <= i < |inner| ensures inner[i] in p {
        assert path[i + 1] in UpstreamsOf(p, path[i]);
      }
      forall i, j | 0 <= i < j < |inner| ensures inner[i] != inner[j] {
        if path[i] == path[j] {
          CycleAmong(p, path, i, j);
          assert HasProblem(p, path[i]);
        }
      }
      DistinctIsShort(p.Keys, inner);
    }
  }

  /** Without problems, existing Orders that upstream stages connect are variants
      of one Product. */
  lemma {:induction false} ConnectedShareProduct(p: Orders, path: seq<string>)
    requires IsValid(p) && IsPath(p, path) && path != [] && forall i :: 0 <= i < |path| ==> path[i] in p
    ensures p[path[0]].product == p[path[|path| - 1]].product
  {
    if |path| > 1 {
      var n := |path| - 2;
      ConnectedShareProduct(p, path[..n + 1]);
      assert path[n + 1] in UpstreamsOf(p, path[n]);
      assert !HasProblem(p, path[n]);
      assert !OfOtherProduct(p, path[n], path[n + 1]);
    }
  }
}
