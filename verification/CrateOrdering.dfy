/**
 The publishing order of the workspace crates (`ci/order-crates-for-publishing.py`).

 A Python dictionary is modelled by its insertion order together with a map. The
 dependency graph is peeled one layer per round, under a fuse of n * n rounds. The
 layers are characterised by the longest dependency chain that starts at a package,
 and success by the absence of cycles.
 */
module CrateOrdering {
  import opened Collections
  import opened Wrappers

  type Graph = map<string, seq<string>>

  /** One entry of the `packages` array of the cargo metadata. */
  datatype Package = Package(name: string, manifestPath: string, dependencies: seq<string>)

  datatype OrderError =
    | DirectCycle(pairs: set<set<string>>)
    | SuspectedCycle(remaining: seq<string>)

  // ---------------------------------------------------------------------------
  // The dictionaries built from the metadata
  // ---------------------------------------------------------------------------

  function Relevant(dependencies: seq<string>): seq<string> {
    if dependencies == [] then []
    else if "solana" <= dependencies[0] then [dependencies[0]] + Relevant(dependencies[1..])
    else Relevant(dependencies[1..])
  }

  function DependencyGraph(metadata: seq<Package>): Graph {
    if metadata == [] then map[]
    else
      var last := metadata[|metadata| - 1];
      DependencyGraph(metadata[..|metadata| - 1])[last.name := Relevant(last.dependencies)]
  }

  function Manifests(metadata: seq<Package>): map<string, string> {
    if metadata == [] then map[]
    else
      var last := metadata[|metadata| - 1];
      Manifests(metadata[..|metadata| - 1])[last.name := last.manifestPath]
  }

  /** Insertion order of the dictionary: a key keeps the place of its first insertion. */
  function KeyOrder(metadata: seq<Package>): seq<string> {
    if metadata == [] then []
    else
      var before := KeyOrder(metadata[..|metadata| - 1]);
      var name := metadata[|metadata| - 1].name;
      if name in before then before else before + [name]
  }

  lemma {:induction false} DictionaryShape(metadata: seq<Package>)
    ensures Distinct(KeyOrder(metadata))
    ensures forall p :: p in KeyOrder(metadata) <==> p in DependencyGraph(metadata)
    ensures Manifests(metadata).Keys == DependencyGraph(metadata).Keys
  {
    if metadata != [] {
      DictionaryShape(metadata[..|metadata| - 1]);
    }
  }

  lemma RelevantMember(dependencies: seq<string>, d: string)
    ensures d in Relevant(dependencies) <==> d in dependencies && "solana" <= d
  {
  }

  /** Entry i is the last one, or the first one, of its name. */
  ghost predicate LastOfName(metadata: seq<Package>, i: nat) {
    i < |metadata| && forall j :: i < j < |metadata| ==> metadata[j].name != metadata[i].name
  }

  ghost predicate FirstOfName(metadata: seq<Package>, i: nat) {
    i < |metadata| && forall j :: 0 <= j < i ==> metadata[j].name != metadata[i].name
  }

  /**
   The dictionaries as the metadata has them: a name has the path and the `solana` dependencies of its last
   entry, and its place among the keys is that of its first.
   */
  ghost predicate LoadedFrom(
    metadata: seq<Package>, order: seq<string>, graph: Graph, manifests: map<string, string>)
  {
    && Distinct(order)
    && (forall n :: n in order <==> n in graph) && (forall n :: n in order <==> n in manifests)
    && (forall i :: 0 <= i < |metadata| ==> metadata[i].name in order)
    && (forall n :: n in order ==> exists i: nat :: LastOfName(metadata, i) && metadata[i].name == n)
    && (forall i: nat :: LastOfName(metadata, i) && metadata[i].name in manifests ==>
          manifests[metadata[i].name] == metadata[i].manifestPath)
    && (forall i: nat, d :: LastOfName(metadata, i) && metadata[i].name in graph ==>
          (d in graph[metadata[i].name] <==> d in metadata[i].dependencies && "solana" <= d))
    && (forall i: nat, j: nat :: i < j && FirstOfName(metadata, i) && FirstOfName(metadata, j) ==>
          Before(order, metadata[i].name, metadata[j].name))
  }

  lemma LastEntry(metadata: seq<Package>, i: nat)
    requires i < |metadata|
    ensures exists j: nat :: LastOfName(metadata, j) && metadata[j].name == metadata[i].name
    decreases |metadata| - i
  {
    if j :| i < j < |metadata| && metadata[j].name == metadata[i].name {
      LastEntry(metadata, j);
    } else {
      assert LastOfName(metadata, i);
    }
  }

  lemma {:induction false} NamesAreKeys(metadata: seq<Package>, n: string)
    ensures n in KeyOrder(metadata) <==> exists i :: 0 <= i < |metadata| && metadata[i].name == n
    decreases |metadata|
  {
    if metadata != [] {
      var m := |metadata| - 1;
      NamesAreKeys(metadata[..m], n);
      assert forall i :: 0 <= i < m ==> metadata[..m][i] == metadata[i];
    }
  }

  lemma {:induction false} LastEntryWins(metadata: seq<Package>, i: nat)
    requires LastOfName(metadata, i)
    ensures metadata[i].name in Manifests(metadata) && Manifests(metadata)[metadata[i].name] == metadata[i].manifestPath
    ensures metadata[i].name in DependencyGraph(metadata)
    ensures DependencyGraph(metadata)[metadata[i].name] == Relevant(metadata[i].dependencies)
    decreases |metadata|
  {
    var m := |metadata| - 1;
    if i < m {
      assert LastOfName(metadata[..m], i);
      LastEntryWins(metadata[..m], i);
    }
  }

  lemma {:induction false} KeyOrderGrows(metadata: seq<Package>, i: nat)
    requires i <= |metadata|
    ensures KeyOrder(metadata[..i]) <= KeyOrder(metadata)
    decreases |metadata|
  {
    if i == |metadata| {
      assert metadata[..i] == metadata;
    } else {
      var m := |metadata| - 1;
      KeyOrderGrows(metadata[..m], i);
      assert metadata[..m][..i] == metadata[..i];
    }
  }

  lemma FirstEntryPlace(metadata: seq<Package>, i: nat)
    requires FirstOfName(metadata, i)
    ensures |KeyOrder(metadata[..i])| < |KeyOrder(metadata)|
    ensures KeyOrder(metadata)[|KeyOrder(metadata[..i])|] == metadata[i].name
  {
    NamesAreKeys(metadata[..i], metadata[i].name);
    KeyOrderGrows(metadata, i + 1);
    assert metadata[..i + 1][..i] == metadata[..i];
    assert KeyOrder(metadata[..i + 1]) == KeyOrder(metadata[..i]) + [metadata[i].name];
  }

  lemma FirstEntryPlaces(metadata: seq<Package>, i: nat, j: nat)
    requires i < j && FirstOfName(metadata, i) && FirstOfName(metadata, j)
    ensures Before(KeyOrder(metadata), metadata[i].name, metadata[j].name)
  {
    assert metadata[..j][..i] == metadata[..i];
    FirstEntryPlace(metadata[..j], i);
    FirstEntryPlace(metadata, i);
    FirstEntryPlace(metadata, j);
    DictionaryShape(metadata);
  }

  lemma DictionariesOfMetadata(metadata: seq<Package>)
    ensures LoadedFrom(metadata, KeyOrder(metadata), DependencyGraph(metadata), Manifests(metadata))
  {
    DictionaryShape(metadata);
    forall n ensures n in KeyOrder(metadata) <==> exists i :: 0 <= i < |metadata| && metadata[i].name == n {
      NamesAreKeys(metadata, n);
    }
    forall i: nat | i < |metadata|
      ensures exists j: nat :: LastOfName(metadata, j) && metadata[j].name == metadata[i].name
    {
      LastEntry(metadata, i);
    }
    forall i: nat | LastOfName(metadata, i)
      ensures metadata[i].name in Manifests(metadata)
      ensures Manifests(metadata)[metadata[i].name] == metadata[i].manifestPath
      ensures metadata[i].name in DependencyGraph(metadata)
      ensures DependencyGraph(metadata)[metadata[i].name] == Relevant(metadata[i].dependencies)
    {
      LastEntryWins(metadata, i);
    }
    forall i: nat, d | LastOfName(metadata, i)
      ensures d in Relevant(metadata[i].dependencies) <==> d in metadata[i].dependencies && "solana" <= d
    {
      RelevantMember(metadata[i].dependencies, d);
    }
    forall i: nat, j: nat | i < j && FirstOfName(metadata, i) && FirstOfName(metadata, j)
      ensures Before(KeyOrder(metadata), metadata[i].name, metadata[j].name)
    {
      FirstEntryPlaces(metadata, i, j);
    }
  }

  // ---------------------------------------------------------------------------
  // Chains, cycles and layers
  // ---------------------------------------------------------------------------

  predicate Edge(g: Graph, p: string, d: string) {
    p in g && d in g && d in g[p]
  }

  /** A dependency chain of k edges starts at p, inside the workspace. */
  predicate HasChain(g: Graph, p: string, k: nat)
    decreases k
  {
    p in g && (k == 0 || exists d :: d in g[p] && HasChain(g, d, k - 1))
  }

  ghost predicate IsWalk(g: Graph, walk: seq<string>) {
    && |walk| > 0
    && (forall i :: 0 <= i < |walk| ==> walk[i] in g)
    && (forall i, j :: 0 <= i < j < |walk| && j == i + 1 ==> Edge(g, walk[i], walk[j]))
  }

  ghost predicate IsCycle(g: Graph, walk: seq<string>) {
    IsWalk(g, walk) && |walk| >= 2 && walk[0] == walk[|walk| - 1]
  }

  ghost predicate Cyclic(g: Graph) {
    exists walk :: IsCycle(g, walk)
  }

  ghost predicate ReachesCycle(g: Graph, p: string) {
    exists walk, i :: IsWalk(g, walk) && walk[0] == p && 0 <= i < |walk| && IsCycle(g, walk[i..])
  }

  /** The longest chain from p has exactly k edges. */
  predicate InLayer(g: Graph, p: string, k: nat) {
    HasChain(g, p, k) && !HasChain(g, p, k + 1)
  }

  lemma {:induction false} ChainShortens(g: Graph, p: string, j: nat, k: nat)
    requires HasChain(g, p, k) && j <= k
    ensures HasChain(g, p, j)
    decreases k
  {
    if j > 0 {
      var d :| d in g[p] && HasChain(g, d, k - 1);
      ChainShortens(g, d, j - 1, k - 1);
    }
  }

  lemma {:induction false} ChainToWalk(g: Graph, p: string, k: nat) returns (walk: seq<string>)
    requires HasChain(g, p, k)
    ensures IsWalk(g, walk) && |walk| == k + 1 && walk[0] == p
    decreases k
  {
    if k == 0 {
      walk := [p];
    } else {
      var d :| d in g[p] && HasChain(g, d, k - 1);
      var rest := ChainToWalk(g, d, k - 1);
      walk := [p] + rest;
    }
  }

  /** Pigeonhole: more entries than values forces a repetition. */
  lemma {:induction false} Repetition(s: seq<string>, values: set<string>) returns (i: nat, j: nat)
    requires forall x :: x in s ==> x in values
    requires |s| > |values|
    ensures i < j < |s| && s[i] == s[j]
    decreases |s|
  {
    var head := s[0];
    if head in s[1..] {
      i := 0;
      var t :| 0 <= t < |s[1..]| && s[1..][t] == head;
      j := t + 1;
    } else {
      var smaller := values - {head};
      assert |smaller| == |values| - 1;
      i, j := Repetition(s[1..], smaller);
      i, j := i + 1, j + 1;
    }
  }

  lemma SubWalk(g: Graph, walk: seq<string>, i: nat, j: nat)
    requires IsWalk(g, walk) && i < j <= |walk|
    ensures IsWalk(g, walk[i..j])
  {
  }

  /** A chain with as many edges as there are packages runs into a cycle. */
  lemma LongChainReachesCycle(g: Graph, p: string)
    requires HasChain(g, p, |g|)
    ensures ReachesCycle(g, p) && Cyclic(g)
  {
    var walk := ChainToWalk(g, p, |g|);
    assert |g| == |g.Keys|;
    var i, j := Repetition(walk, g.Keys);
    SubWalk(g, walk, 0, j + 1);
    SubWalk(g, walk, i, j + 1);
    var short := walk[..j + 1];
    assert short[i..] == walk[i..j + 1];
    assert short == walk[0..j + 1];
    assert IsWalk(g, short) && short[0] == p && 0 <= i < |short| && IsCycle(g, short[i..]);
  }

  /** Around a cycle, chains of every length start. */
  lemma {:induction false} CycleHasChains(g: Graph, walk: seq<string>, i: nat, k: nat)
    requires IsCycle(g, walk) && i < |walk| - 1
    ensures HasChain(g, walk[i], k)
    decreases k
  {
    if k > 0 {
      assert Edge(g, walk[i], walk[i + 1]);
      CycleHasChains(g, walk, if i + 1 < |walk| - 1 then i + 1 else 0, k - 1);
    }
  }

  lemma {:induction false} WalkPrefixesChain(g: Graph, walk: seq<string>, i: nat, k: nat)
    requires IsWalk(g, walk) && i < |walk| && HasChain(g, walk[i], k)
    ensures HasChain(g, walk[0], i + k)
    decreases i
  {
    if i > 0 {
      assert Edge(g, walk[i - 1], walk[i]);
      assert HasChain(g, walk[i - 1], k + 1);
      WalkPrefixesChain(g, walk, i - 1, k + 1);
    }
  }

  /** Arbitrarily long chains start at exactly the packages that reach a cycle. */
  lemma StuckIffReachesCycle(g: Graph, p: string, k: nat)
    requires k >= |g|
    ensures HasChain(g, p, k) <==> ReachesCycle(g, p)
  {
    if HasChain(g, p, k) {
      ChainShortens(g, p, |g|, k);
      LongChainReachesCycle(g, p);
    }
    if ReachesCycle(g, p) {
      var walk, i :| IsWalk(g, walk) && walk[0] == p && 0 <= i < |walk| && IsCycle(g, walk[i..]);
      CycleHasChains(g, walk[i..], 0, k);
      assert walk[i..][0] == walk[i];
      WalkPrefixesChain(g, walk, i, k);
      ChainShortens(g, p, k, i + k);
    }
  }

  /** The packages that survive n rounds are none exactly when the graph is acyclic. */
  lemma CyclicIffStuck(g: Graph, k: nat)
    requires k >= |g|
    ensures Cyclic(g) <==> exists p :: HasChain(g, p, k)
  {
    if Cyclic(g) {
      var walk :| IsCycle(g, walk);
      CycleHasChains(g, walk, 0, k);
      assert HasChain(g, walk[0], k);
    }
    if exists p :: HasChain(g, p, k) {
      var p :| HasChain(g, p, k);
      ChainShortens(g, p, |g|, k);
      LongChainReachesCycle(g, p);
    }
  }

  // ---------------------------------------------------------------------------
  // The publishing order
  // ---------------------------------------------------------------------------

  ghost function IndexOf(s: seq<string>, x: string): (i: nat)
    requires x in s
    ensures i < |s| && s[i] == x
  {
    var i :| 0 <= i < |s| && s[i] == x;
    i
  }

  ghost predicate Before(s: seq<string>, x: string, y: string) {
    x in s && y in s && IndexOf(s, x) < IndexOf(s, y)
  }

  /** x is published before y: its longest chain is shorter, or equally long and x is the older key. */
  ghost predicate Earlier(g: Graph, order: seq<string>, x: string, y: string) {
    exists a: nat, b: nat :: InLayer(g, x, a) && InLayer(g, y, b) && (a < b || (a == b && Before(order, x, y)))
  }

  ghost predicate Ordered(order: seq<string>, s: seq<string>) {
    forall i, j :: 0 <= i < j < |s| ==> Before(order, s[i], s[j])
  }

  ghost predicate Ascending(g: Graph, order: seq<string>, names: seq<string>) {
    forall i, j :: 0 <= i < j < |names| ==> Earlier(g, order, names[i], names[j])
  }

  /** All packages of the graph, each before every package that has to come later. */
  ghost predicate IsPublishingOrder(g: Graph, order: seq<string>, names: seq<string>) {
    && (forall p :: p in names <==> p in g)
    && Ascending(g, order, names)
  }

  lemma LayerUnique(g: Graph, p: string, a: nat, b: nat)
    requires InLayer(g, p, a) && InLayer(g, p, b)
    ensures a == b
  {
    if a < b {
      ChainShortens(g, p, a + 1, b);
    } else if b < a {
      ChainShortens(g, p, b + 1, a);
    }
  }

  lemma EarlierAsymmetric(g: Graph, order: seq<string>, x: string, y: string)
    requires Distinct(order) && Earlier(g, order, x, y)
    ensures !Earlier(g, order, y, x)
  {
    var a: nat, b: nat :| InLayer(g, x, a) && InLayer(g, y, b) && (a < b || (a == b && Before(order, x, y)));
    if Earlier(g, order, y, x) {
      var c: nat, d: nat :| InLayer(g, y, c) && InLayer(g, x, d) && (c < d || (c == d && Before(order, y, x)));
      LayerUnique(g, x, a, d);
      LayerUnique(g, y, b, c);
    }
  }

  /** The relative order of two published packages, exactly. */
  lemma PublishedBeforeIff(g: Graph, order: seq<string>, names: seq<string>, i: nat, j: nat)
    requires Distinct(order) && IsPublishingOrder(g, order, names)
    requires i < |names| && j < |names|
    ensures i < j <==> Earlier(g, order, names[i], names[j])
  {
    if Earlier(g, order, names[i], names[j]) {
      EarlierAsymmetric(g, order, names[i], names[j]);
    }
  }

  /** No package is published twice. */
  lemma PublishedOnce(g: Graph, order: seq<string>, names: seq<string>)
    requires Distinct(order) && IsPublishingOrder(g, order, names)
    ensures Distinct(names)
    ensures |names| == |g|
  {
    forall i, j | 0 <= i < j < |names| ensures names[i] != names[j] {
      EarlierAsymmetric(g, order, names[i], names[j]);
    }
    OrderSize(g, names);
  }

  /** A dependency lies in an earlier layer than the package that needs it. */
  lemma EdgeIsEarlier(g: Graph, order: seq<string>, p: string, d: string, a: nat, b: nat)
    requires Edge(g, p, d) && InLayer(g, d, a) && InLayer(g, p, b)
    ensures Earlier(g, order, d, p)
  {
    assert HasChain(g, p, a + 1);
    if b <= a {
      ChainShortens(g, p, b + 1, a + 1);
    }
  }

  /** Every chain from p is shorter than k, so p has a layer below k. */
  lemma {:induction false} LayerExists(g: Graph, p: string, k: nat) returns (a: nat)
    requires p in g && !HasChain(g, p, k)
    ensures a < k && InLayer(g, p, a)
    decreases k
  {
    if HasChain(g, p, k - 1) {
      a := k - 1;
    } else {
      a := LayerExists(g, p, k - 1);
    }
  }

  /** In an acyclic workspace a package is published after all dependencies that are edges of the graph. */
  lemma PublishedAfterDependencies(g: Graph, order: seq<string>, names: seq<string>, i: nat, j: nat)
    requires !Cyclic(g)
    requires Distinct(order) && IsPublishingOrder(g, order, names)
    requires i < |names| && j < |names| && Edge(g, names[i], names[j])
    ensures j < i
  {
    CyclicIffStuck(g, |g|);
    var a := LayerExists(g, names[j], |g|);
    var b := LayerExists(g, names[i], |g|);
    EdgeIsEarlier(g, order, names[i], names[j], a, b);
    PublishedBeforeIff(g, order, names, j, i);
  }

  // ---------------------------------------------------------------------------
  // The algorithm
  // ---------------------------------------------------------------------------

  ghost predicate MutualDependency(g: Graph, p: string, d: string) {
    Edge(g, p, d) && Edge(g, d, p)
  }

  method LoadGraph(metadata: seq<Package>)
    returns (order: seq<string>, graph: Graph, manifests: map<string, string>)
    ensures order == KeyOrder(metadata)
    ensures graph == DependencyGraph(metadata)
    ensures manifests == Manifests(metadata)
    ensures LoadedFrom(metadata, order, graph, manifests)
  {
    order, graph, manifests := [], map[], map[];
    for i := 0 to |metadata|
      invariant order == KeyOrder(metadata[..i])
      invariant graph == DependencyGraph(metadata[..i])
      invariant manifests == Manifests(metadata[..i])
    {
      assert metadata[..i + 1][..i] == metadata[..i];
      var pkg := metadata[i];
      var names := [];
      for j := 0 to |pkg.dependencies|
        invariant names + Relevant(pkg.dependencies[j..]) == Relevant(pkg.dependencies)
      {
        assert pkg.dependencies[j..][1..] == pkg.dependencies[j + 1..];
        if "solana" <= pkg.dependencies[j] {
          names := names + [pkg.dependencies[j]];
        }
      }
      assert names == Relevant(pkg.dependencies) by {
        assert pkg.dependencies[|pkg.dependencies|..] == [];
        assert names + [] == names;
      }
      manifests := manifests[pkg.name := pkg.manifestPath];
      graph := graph[pkg.name := names];
      if pkg.name !in order {
        order := order + [pkg.name];
      }
    }
    assert metadata[..|metadata|] == metadata;
    DictionariesOfMetadata(metadata);
  }

  method DirectCycles(order: seq<string>, graph: Graph) returns (pairs: set<set<string>>)
    requires forall p :: p in order <==> p in graph
    ensures forall pair :: pair in pairs <==> exists p, d :: MutualDependency(graph, p, d) && pair == {p, d}
  {
    pairs := {};
    for i := 0 to |order|
      invariant forall pair :: pair in pairs <==>
        exists t, d :: 0 <= t < i && MutualDependency(graph, order[t], d) && pair == {order[t], d}
    {
      var dependencies := graph[order[i]];
      ghost var before := pairs;
      for j := 0 to |dependencies|
        invariant forall pair :: pair in pairs <==>
          (pair in before || exists u :: 0 <= u < j && MutualDependency(graph, order[i], dependencies[u])
                                         && pair == {order[i], dependencies[u]})
      {
        var d := dependencies[j];
        if d in graph && order[i] in graph[d] {
          pairs := pairs + {{order[i], d}};
        }
      }
    }
  }

  lemma DirectCyclesAreCycles(g: Graph, pairs: set<set<string>>)
    requires forall pair :: pair in pairs <==> exists p, d :: MutualDependency(g, p, d) && pair == {p, d}
    ensures pairs != {} ==> Cyclic(g)
    ensures pairs == {} <==> forall p, d :: !MutualDependency(g, p, d)
  {
    if pairs != {} {
      var pair :| pair in pairs;
      var p, d :| MutualDependency(g, p, d) && pair == {p, d};
      assert IsCycle(g, [p, d, p]);
    }
    assert forall p, d :: MutualDependency(g, p, d) ==> {p, d} in pairs;
  }

  /** One round over the dictionary `keys`: the packages none of whose dependencies is still a key. */
  method ReadyPackages(keys: seq<string>, g: Graph, ghost order: seq<string>, ghost k: nat)
    returns (deleted: seq<string>)
    requires Distinct(order) && Ordered(order, keys)
    requires forall p :: p in keys <==> HasChain(g, p, k)
    ensures Ordered(order, deleted)
    ensures forall p :: p in deleted <==> InLayer(g, p, k)
  {
    deleted := [];
    for i := 0 to |keys|
      invariant Ordered(order, deleted)
      invariant forall p :: p in deleted <==> p in keys[..i] && InLayer(g, p, k)
    {
      var package := keys[i];
      assert package in keys;
      forall t | 0 <= t < i ensures keys[t] != package {
        assert Before(order, keys[t], package);
      }
      assert package !in deleted;
      if package !in deleted {
        var dependencies, blocked := g[package], false;
        for j := 0 to |dependencies|
          invariant !blocked
          invariant forall t :: 0 <= t < j ==> !HasChain(g, dependencies[t], k)
        {
          if dependencies[j] in keys {
            blocked := true;
            break;
          }
        }
        assert blocked <==> exists d :: d in g[package] && HasChain(g, d, k);
        if !blocked {
          forall t | 0 <= t < |deleted| ensures Before(order, deleted[t], package) {
            assert deleted[t] in deleted;
          }
          deleted := deleted + [package];
        }
      }
    }
    assert keys[..|keys|] == keys;
    forall p | InLayer(g, p, k) ensures p in deleted {
      assert p in keys;
    }
  }

  method Without(keys: seq<string>, deleted: seq<string>, ghost order: seq<string>) returns (keys': seq<string>)
    requires Ordered(order, keys)
    ensures Ordered(order, keys')
    ensures forall p :: p in keys' <==> p in keys && p !in deleted
  {
    keys' := [];
    for i := 0 to |keys|
      invariant Ordered(order, keys')
      invariant forall p :: p in keys' <==> p in keys[..i] && p !in deleted
    {
      if keys[i] !in deleted {
        forall t | 0 <= t < |keys'| ensures Before(order, keys'[t], keys[i]) {
          assert keys'[t] in keys';
        }
        keys' := keys' + [keys[i]];
      }
    }
    assert keys[..|keys|] == keys;
  }

  /** Appending the layer of round k keeps the list sorted and complete up to round k. */
  lemma AppendLayer(g: Graph, order: seq<string>, sorted: seq<string>, deleted: seq<string>, k: nat)
    requires Ascending(g, order, sorted) && Ordered(order, deleted)
    requires forall p :: p in sorted <==> p in g && !HasChain(g, p, k)
    requires forall p :: p in deleted <==> InLayer(g, p, k)
    ensures Ascending(g, order, sorted + deleted)
    ensures forall p :: p in sorted + deleted <==> p in g && !HasChain(g, p, k + 1)
  {
    forall i, j | 0 <= i < j < |sorted + deleted|
      ensures Earlier(g, order, (sorted + deleted)[i], (sorted + deleted)[j])
    {
      if |sorted| <= j {
        assert deleted[j - |sorted|] in deleted;
        if i < |sorted| {
          assert sorted[i] in sorted;
          var a := LayerExists(g, sorted[i], k);
        } else {
          assert deleted[i - |sorted|] in deleted;
        }
      }
    }
    forall p | p in g && !HasChain(g, p, k) ensures !HasChain(g, p, k + 1) {
      if HasChain(g, p, k + 1) {
        ChainShortens(g, p, k, k + 1);
      }
    }
  }

  /** Before round k, the keys left are those with a chain of k edges and the others are sorted. */
  ghost predicate AtRound(g: Graph, order: seq<string>, keys: seq<string>, sorted: seq<string>, k: nat) {
    && Ordered(order, keys)
    && (forall p :: p in keys <==> HasChain(g, p, k))
    && Ascending(g, order, sorted)
    && (forall p :: p in sorted <==> p in g && !HasChain(g, p, k))
  }

  lemma FirstRound(g: Graph, order: seq<string>)
    requires Distinct(order)
    requires forall p :: p in order <==> p in g
    ensures AtRound(g, order, order, [], 0)
  {
  }

  /** Round k moves exactly the packages whose longest chain has k edges from the keys to the list. */
  method PeelLayer(keys: seq<string>, sorted: seq<string>, g: Graph, ghost order: seq<string>, ghost k: nat)
    returns (keys': seq<string>, sorted': seq<string>)
    requires Distinct(order) && AtRound(g, order, keys, sorted, k)
    ensures AtRound(g, order, keys', sorted', k + 1)
    ensures sorted <= sorted' && forall p :: p in sorted'[|sorted|..] <==> InLayer(g, p, k)
  {
    var deleted := ReadyPackages(keys, g, order, k);
    AppendLayer(g, order, sorted, deleted, k);
    sorted' := sorted + deleted;
    assert sorted'[|sorted|..] == deleted;
    keys' := Without(keys, deleted, order);
    KeysLeft(g, keys, deleted, keys', k);
  }

  /** Without the layer of round k, the keys are those with a chain of one more edge. */
  lemma KeysLeft(g: Graph, keys: seq<string>, deleted: seq<string>, keys': seq<string>, k: nat)
    requires forall p :: p in keys <==> HasChain(g, p, k)
    requires forall p :: p in deleted <==> InLayer(g, p, k)
    requires forall p :: p in keys' <==> p in keys && p !in deleted
    ensures forall p :: p in keys' <==> HasChain(g, p, k + 1)
  {
    forall p | HasChain(g, p, k + 1) ensures p in keys {
      ChainShortens(g, p, k, k + 1);
    }
  }

  /** The ordering loop, under a fuse. On failure it reports the keys it could not place. */
  method PeelLayers(order: seq<string>, g: Graph, fuse: nat)
    returns (r: Result<seq<string>, seq<string>>, ghost rounds: nat)
    requires Distinct(order)
    requires forall p :: p in order <==> p in g
    ensures r.Ok? ==> IsPublishingOrder(g, order, r.value) && forall p :: !HasChain(g, p, rounds)
    ensures r.Err? ==> r.error != [] && forall p :: p in r.error <==> HasChain(g, p, fuse)
  {
    var keys, sorted, maxIterations := order, [], fuse;
    rounds := 0;
    FirstRound(g, order);
    while keys != []
      invariant 0 <= maxIterations == fuse - rounds
      invariant AtRound(g, order, keys, sorted, rounds)
      decreases maxIterations
    {
      if maxIterations == 0 {
        return Err(keys), rounds;
      }
      maxIterations := maxIterations - 1;
      keys, sorted := PeelLayer(keys, sorted, g, order, rounds);
      rounds := rounds + 1;
    }
    r := Ok(sorted);
  }

  lemma SquareIsEnough(n: nat)
    ensures n * n >= n
  {
  }

  ghost predicate Accurate(g: Graph, error: OrderError) {
    match error
    case DirectCycle(pairs) =>
      && pairs != {}
      && forall pair :: pair in pairs <==> exists p, d :: MutualDependency(g, p, d) && pair == {p, d}
    case SuspectedCycle(remaining) =>
      && (forall p, d :: !MutualDependency(g, p, d))
      && forall p :: p in remaining <==> ReachesCycle(g, p)
  }

  method GetPackages(metadata: seq<Package>) returns (r: Result<seq<(string, string)>, OrderError>)
    ensures r.Ok? <==> !Cyclic(DependencyGraph(metadata))
    ensures r.Ok? ==> IsPublishingOrder(DependencyGraph(metadata), KeyOrder(metadata), Names(r.value))
    ensures r.Ok? ==> forall entry :: entry in r.value ==> ListedFrom(metadata, entry)
    ensures r.Err? ==> Accurate(DependencyGraph(metadata), r.error)
  {
    var order, graph, manifests := LoadGraph(metadata);
    DictionaryShape(metadata);
    var circular := DirectCycles(order, graph);
    DirectCyclesAreCycles(graph, circular);
    if circular != {} {
      return Err(DirectCycle(circular));
    }
    OrderSize(graph, order);
    SquareIsEnough(|order|);
    var names, rounds := PeelLayers(order, graph, |order| * |order|);
    match names
    case Err(remaining) =>
      StuckIsAccurate(graph, remaining, |order| * |order|);
      r := Err(SuspectedCycle(remaining));
    case Ok(sorted) =>
      NoChainsMeansAcyclic(graph, rounds);
      r := Ok(seq(|sorted|, i requires 0 <= i < |sorted| => (sorted[i], manifests[sorted[i]])));
      ListingFrom(metadata, sorted, r.value);
  }

  /** The listed path is the one the last metadata entry of that name gives. */
  ghost predicate ListedFrom(metadata: seq<Package>, entry: (string, string)) {
    exists i: nat :: LastOfName(metadata, i) && metadata[i].name == entry.0 && metadata[i].manifestPath == entry.1
  }

  lemma ManifestListed(metadata: seq<Package>, n: string)
    requires n in Manifests(metadata)
    ensures ListedFrom(metadata, (n, Manifests(metadata)[n]))
  {
    DictionaryShape(metadata);
    NamesAreKeys(metadata, n);
    var k :| 0 <= k < |metadata| && metadata[k].name == n;
    LastEntry(metadata, k);
    var i: nat :| LastOfName(metadata, i) && metadata[i].name == n;
    LastEntryWins(metadata, i);
  }

  lemma ListingFrom(metadata: seq<Package>, sorted: seq<string>, listing: seq<(string, string)>)
    requires forall n :: n in sorted ==> n in Manifests(metadata)
    requires |listing| == |sorted|
    requires forall t :: 0 <= t < |sorted| ==> listing[t] == (sorted[t], Manifests(metadata)[sorted[t]])
    ensures Names(listing) == sorted
    ensures forall entry :: entry in listing ==> ListedFrom(metadata, entry)
  {
    forall entry | entry in listing ensures ListedFrom(metadata, entry) {
      var t :| 0 <= t < |listing| && listing[t] == entry;
      ManifestListed(metadata, sorted[t]);
    }
  }

  function Names(listing: seq<(string, string)>): seq<string> {
    seq(|listing|, i requires 0 <= i < |listing| => listing[i].0)
  }

  lemma NoChainsMeansAcyclic(g: Graph, k: nat)
    requires forall p :: !HasChain(g, p, k)
    ensures !Cyclic(g)
  {
    forall walk | IsCycle(g, walk) ensures false {
      CycleHasChains(g, walk, 0, k);
    }
  }

  /** After n or more rounds, exactly the packages that reach a cycle are left. */
  lemma StuckIsAccurate(g: Graph, remaining: seq<string>, k: nat)
    requires k >= |g| && remaining != []
    requires forall p :: p in remaining <==> HasChain(g, p, k)
    ensures Cyclic(g)
    ensures forall p :: p in remaining <==> ReachesCycle(g, p)
  {
    assert remaining[0] in remaining;
    CyclicIffStuck(g, k);
    forall p ensures p in remaining <==> ReachesCycle(g, p) {
      StuckIffReachesCycle(g, p, k);
    }
  }

  lemma {:induction false} DistinctSize(s: seq<string>)
    requires Distinct(s)
    ensures |set x | x in s| == |s|
    decreases |s|
  {
    if s != [] {
      var before, last := s[..|s| - 1], s[|s| - 1];
      DistinctSize(before);
      assert s == before + [last];
      assert last !in before;
      assert (set x | x in s) == (set x | x in before) + {last};
    }
  }

  lemma OrderSize(g: Graph, order: seq<string>)
    requires Distinct(order)
    requires forall p :: p in order <==> p in g
    ensures |order| == |g|
  {
    DistinctSize(order);
    assert g.Keys == set x | x in order;
  }

  // ---------------------------------------------------------------------------
  // Workspace dependencies outside the "solana" name prefix
  // ---------------------------------------------------------------------------

  /** The dependency graph before names without the prefix are dropped. */
  function FullGraph(metadata: seq<Package>): Graph {
    if metadata == [] then map[]
    else
      var last := metadata[|metadata| - 1];
      FullGraph(metadata[..|metadata| - 1])[last.name := last.dependencies]
  }

  lemma {:induction false} FullGraphFiltered(metadata: seq<Package>)
    ensures FullGraph(metadata).Keys == DependencyGraph(metadata).Keys
    ensures forall p :: p in FullGraph(metadata) ==> DependencyGraph(metadata)[p] == Relevant(FullGraph(metadata)[p])
  {
    if metadata != [] {
      FullGraphFiltered(metadata[..|metadata| - 1]);
    }
  }

  lemma KnownEdges(metadata: seq<Package>, p: string, d: string)
    ensures Edge(DependencyGraph(metadata), p, d) <==> Edge(FullGraph(metadata), p, d) && "solana" <= d
  {
    FullGraphFiltered(metadata);
    if p in FullGraph(metadata) {
      RelevantMember(FullGraph(metadata)[p], d);
    }
  }

  ghost predicate RespectsAllDependencies(metadata: seq<Package>, names: seq<string>) {
    forall i, j | 0 <= i < |names| && 0 <= j < |names| :: Edge(FullGraph(metadata), names[i], names[j]) ==> j < i
  }

  /**
   The published list puts every workspace dependency first if and only if the dependencies whose
   names lack the prefix happen to come first by chain length and dictionary position.
   */
  lemma RespectsAllIff(metadata: seq<Package>, names: seq<string>)
    requires !Cyclic(DependencyGraph(metadata))
    requires IsPublishingOrder(DependencyGraph(metadata), KeyOrder(metadata), names)
    ensures RespectsAllDependencies(metadata, names) <==>
      forall p, d :: Edge(FullGraph(metadata), p, d) && !("solana" <= d)
        ==> Earlier(DependencyGraph(metadata), KeyOrder(metadata), d, p)
  {
    var g, order := DependencyGraph(metadata), KeyOrder(metadata);
    DictionaryShape(metadata);
    FullGraphFiltered(metadata);
    if RespectsAllDependencies(metadata, names) {
      forall p, d | Edge(FullGraph(metadata), p, d) && !("solana" <= d) ensures Earlier(g, order, d, p) {
        PublishedBeforeIff(g, order, names, IndexOf(names, d), IndexOf(names, p));
      }
    } else {
      var i, j :| 0 <= i < |names| && 0 <= j < |names| && Edge(FullGraph(metadata), names[i], names[j]) && j >= i;
      KnownEdges(metadata, names[i], names[j]);
      if "solana" <= names[j] {
        PublishedAfterDependencies(g, order, names, i, j);
      }
      PublishedBeforeIff(g, order, names, j, i);
    }
  }

  /**
   A workspace made up for the purpose, of two crates: one needs the other, whose name lacks the prefix, and
   nothing else.
   */
  function FaucetWorkspace(): seq<Package> {
    [Package("solana-core", "core/Cargo.toml", ["panoptes-faucet"]),
     Package("panoptes-faucet", "faucet/Cargo.toml", [])]
  }

  lemma FaucetWorkspaceDictionaries()
    ensures KeyOrder(FaucetWorkspace()) == ["solana-core", "panoptes-faucet"]
    ensures DependencyGraph(FaucetWorkspace()) == map["solana-core" := [], "panoptes-faucet" := []]
    ensures FullGraph(FaucetWorkspace()) == map["solana-core" := ["panoptes-faucet"], "panoptes-faucet" := []]
  {
    var core := FaucetWorkspace()[0];
    assert FaucetWorkspace()[..1] == [core] && [core][..0] == [];
    assert "panoptes-faucet"[0] != "solana"[0];
    assert "solana-core"[0] != "panoptes-faucet"[0];
    assert Relevant(core.dependencies) == [];
    assert KeyOrder([core]) == ["solana-core"];
    assert DependencyGraph([core]) == map["solana-core" := []];
    assert FullGraph([core]) == map["solana-core" := ["panoptes-faucet"]];
  }

  /** For this workspace the published list has a crate before its own workspace dependency. */
  lemma PrefixLosesDependency(names: seq<string>)
    requires IsPublishingOrder(DependencyGraph(FaucetWorkspace()), KeyOrder(FaucetWorkspace()), names)
    ensures !Cyclic(DependencyGraph(FaucetWorkspace()))
    ensures !RespectsAllDependencies(FaucetWorkspace(), names)
  {
    FaucetWorkspaceDictionaries();
    var g, order := DependencyGraph(FaucetWorkspace()), KeyOrder(FaucetWorkspace());
    assert forall p :: !HasChain(g, p, 1);
    NoChainsMeansAcyclic(g, 1);
    assert "solana-core"[0] != "panoptes-faucet"[0];
    assert IndexOf(order, "solana-core") == 0 && IndexOf(order, "panoptes-faucet") == 1;
    assert InLayer(g, "solana-core", 0) && InLayer(g, "panoptes-faucet", 0);
    assert Earlier(g, order, "solana-core", "panoptes-faucet");
    PublishedBeforeIff(g, order, names, IndexOf(names, "solana-core"), IndexOf(names, "panoptes-faucet"));
    assert Edge(FullGraph(FaucetWorkspace()), "solana-core", "panoptes-faucet");
  }
}
