/**
  The `extends` graph of the profiles, flattened: a depth-first visit that lists a profile
  after what it extends, with guards against cycles and long chains.
 */
module Extends {
  import opened Wrappers
  import opened Seqs

  type ProfileId = string

  /** What each profile extends; a profile that cannot be read is not in the graph. */
  type Graph = map<ProfileId, seq<ProfileId>>

  datatype Visited = Visited(order: seq<ProfileId>, done: set<ProfileId>)

  datatype Fault = Missing(chain: seq<ProfileId>) | Cycle(chain: seq<ProfileId>) | TooDeep(chain: seq<ProfileId>)

  // ---- the visit

  function Left(max: int, depth: int): nat { if depth <= max then max + 1 - depth else 0 }

  function Visit(
    g: Graph, max: int, id: ProfileId, ancestors: seq<ProfileId>, depth: int, s: Visited): Result<Visited, Fault>
    decreases Left(max, depth), 0
  {
    if depth > max then Err(TooDeep(ancestors + [id]))
    else if id in ancestors then Err(Cycle(ancestors + [id]))
    else if id in s.done then Ok(s)
    else if id !in g then Err(Missing(ancestors + [id]))
    else
      var below := VisitAll(g, max, g[id], ancestors + [id], depth + 1, s);
      if below.Err? then below else Ok(Visited(below.value.order + [id], below.value.done + {id}))
  }

  function VisitAll(
    g: Graph, max: int, ids: seq<ProfileId>, ancestors: seq<ProfileId>, depth: int, s: Visited): Result<Visited, Fault>
    decreases Left(max, depth), 1 + |ids|
  {
    if ids == [] then Ok(s)
    else
      var first := Visit(g, max, ids[0], ancestors, depth, s);
      if first.Err? then first else VisitAll(g, max, ids[1..], ancestors, depth, first.value)
  }

  function Resolve(g: Graph, max: int, roots: seq<ProfileId>): Result<seq<ProfileId>, Fault> {
    var r := VisitAll(g, max, roots, [], 0, Visited([], {}));
    if r.Err? then Err(r.error) else Ok(r.value.order)
  }

  class Resolver {
    const graph: Graph
    const maxDepth: int
    var order: seq<ProfileId>
    var done: set<ProfileId>

    constructor (graph: Graph, maxDepth: int)
      ensures this.graph == graph && this.maxDepth == maxDepth && Abs() == Visited([], {})
    {
      this.graph, this.maxDepth, order, done := graph, maxDepth, [], {};
    }

    ghost function Abs(): Visited
      reads this
    {
      Visited(order, done)
    }

    method VisitOne(id: ProfileId, ancestors: seq<ProfileId>, depth: int) returns (fault: Option<Fault>)
      modifies this
      ensures var r := Visit(graph, maxDepth, id, ancestors, depth, old(Abs()));
        if r.Ok? then fault.None? && Abs() == r.value else fault == Some(r.error)
      decreases Left(maxDepth, depth), 0
    {
      if depth > maxDepth {
        return Some(TooDeep(ancestors + [id]));
      }
      if id in ancestors {
        return Some(Cycle(ancestors + [id]));
      }
      if id in done {
        return None;
      }
      if id !in graph {
        return Some(Missing(ancestors + [id]));
      }
      fault := VisitEach(graph[id], ancestors + [id], depth + 1);
      if fault.Some? {
        return;
      }
      done := done + {id};
      order := order + [id];
    }

    method VisitEach(ids: seq<ProfileId>, ancestors: seq<ProfileId>, depth: int) returns (fault: Option<Fault>)
      modifies this
      ensures var r := VisitAll(graph, maxDepth, ids, ancestors, depth, old(Abs()));
        if r.Ok? then fault.None? && Abs() == r.value else fault == Some(r.error)
      decreases Left(maxDepth, depth), 1
    {
      ghost var whole := VisitAll(graph, maxDepth, ids, ancestors, depth, Abs());
      assert ids[0..] == ids;
      for k := 0 to |ids|
        invariant VisitAll(graph, maxDepth, ids[k..], ancestors, depth, Abs()) == whole
      {
        assert ids[k..][0] == ids[k] && ids[k..][1..] == ids[k + 1..];
        fault := VisitOne(ids[k], ancestors, depth);
        if fault.Some? {
          return;
        }
      }
      fault := None;
    }

    /** The layers in order, from a fresh resolver. */
    method ResolveExtends(roots: seq<ProfileId>) returns (r: Result<seq<ProfileId>, Fault>)
      requires Abs() == Visited([], {})
      modifies this
      ensures r == Resolve(graph, maxDepth, roots)
    {
      var fault := VisitEach(roots, [], 0);
      r := if fault.Some? then Err(fault.value) else Ok(order);
    }
  }

  // ---- what the graph holds

  /** Each profile extends the next. */
  ghost predicate Chain(g: Graph, c: seq<ProfileId>) {
    |c| <= 1 ||
    var n := |c| - 1;
    Chain(g, c[..n]) && c[n - 1] in g && c[n] in g[c[n - 1]]
  }

  ghost predicate FromRoots(g: Graph, roots: set<ProfileId>, c: seq<ProfileId>) {
    c != [] && c[0] in roots && Chain(g, c)
  }

  ghost predicate Reachable(g: Graph, roots: set<ProfileId>, id: ProfileId) {
    exists c :: FromRoots(g, roots, c) && c[|c| - 1] == id
  }

  /** Reachable by a chain within the limit. */
  ghost predicate Near(g: Graph, roots: set<ProfileId>, max: int, id: ProfileId) {
    exists c :: FromRoots(g, roots, c) && c[|c| - 1] == id && |c| - 1 <= max
  }

  function Members(s: seq<ProfileId>): set<ProfileId> {
    if s == [] then {} else Members(s[..|s| - 1]) + {s[|s| - 1]}
  }

  /** No profile twice, and each after everything it extends. */
  ghost predicate Layered(g: Graph, order: seq<ProfileId>) {
    order == [] ||
    var n := |order| - 1;
    && Layered(g, order[..n]) && order[n] in g && order[n] !in Members(order[..n])
    && forall p :: p in g[order[n]] ==> p in Members(order[..n])
  }

  /** The fault is one of the graph, reached from the roots. */
  ghost predicate Real(g: Graph, roots: set<ProfileId>, max: int, f: Fault) {
    && FromRoots(g, roots, f.chain)
    && var n := |f.chain| - 1;
    match f
    case Missing(c) => c[n] !in g
    case Cycle(c) => c[n] in c[..n]
    case TooDeep(c) => n > max
  }

  ghost predicate Good(g: Graph, roots: set<ProfileId>, max: int, s: Visited) {
    && Layered(g, s.order) && Members(s.order) == s.done
    && forall id :: id in s.done ==> Near(g, roots, max, id)
  }

  ghost predicate Keeps(
    g: Graph, roots: set<ProfileId>, max: int, ids: set<ProfileId>, ancestors: seq<ProfileId>, s: Visited,
    r: Result<Visited, Fault>)
  {
    match r
    case Err(f) => Real(g, roots, max, f)
    case Ok(t) =>
      && Good(g, roots, max, t) && s.done <= t.done && ids <= t.done
      && forall a :: a in ancestors && a !in s.done ==> a !in t.done
  }

  ghost predicate Under(g: Graph, roots: set<ProfileId>, ancestors: seq<ProfileId>, depth: int, id: ProfileId) {
    |ancestors| == depth && FromRoots(g, roots, ancestors + [id])
  }

  lemma {:induction false} ChainGrows(g: Graph, roots: set<ProfileId>, c: seq<ProfileId>, p: ProfileId)
    requires FromRoots(g, roots, c) && c[|c| - 1] in g && p in g[c[|c| - 1]]
    ensures FromRoots(g, roots, c + [p])
  {
    assert (c + [p])[..|c|] == c;
  }

  lemma {:induction false} Appended(g: Graph, roots: set<ProfileId>, max: int, s: Visited, id: ProfileId)
    requires Good(g, roots, max, s) && id in g && id !in s.done && Near(g, roots, max, id)
    requires forall p :: p in g[id] ==> p in s.done
    ensures Good(g, roots, max, Visited(s.order + [id], s.done + {id}))
  {
    assert (s.order + [id])[..|s.order|] == s.order;
  }

  lemma {:induction false} VisitKeeps(
    g: Graph, max: int, roots: set<ProfileId>, id: ProfileId, ancestors: seq<ProfileId>, depth: int, s: Visited)
    requires Good(g, roots, max, s) && Under(g, roots, ancestors, depth, id)
    ensures Keeps(g, roots, max, {id}, ancestors, s, Visit(g, max, id, ancestors, depth, s))
    decreases Left(max, depth), 0
  {
    var chain := ancestors + [id];
    assert chain[..|ancestors|] == ancestors;
    if depth <= max && id !in ancestors && id !in s.done && id in g {
      forall p | p in g[id]
        ensures Under(g, roots, chain, depth + 1, p)
      {
        ChainGrows(g, roots, chain, p);
      }
      VisitAllKeeps(g, max, roots, g[id], chain, depth + 1, s);
      var below := VisitAll(g, max, g[id], chain, depth + 1, s);
      if below.Ok? {
        assert id in chain;
        Appended(g, roots, max, below.value, id);
      }
    }
  }

  lemma {:induction false} VisitAllKeeps(
    g: Graph, max: int, roots: set<ProfileId>, ids: seq<ProfileId>, ancestors: seq<ProfileId>, depth: int, s: Visited)
    requires Good(g, roots, max, s) && forall id :: id in ids ==> Under(g, roots, ancestors, depth, id)
    ensures Keeps(g, roots, max, (set id | id in ids), ancestors, s, VisitAll(g, max, ids, ancestors, depth, s))
    decreases Left(max, depth), 1 + |ids|
  {
    if ids != [] {
      VisitKeeps(g, max, roots, ids[0], ancestors, depth, s);
      var first := Visit(g, max, ids[0], ancestors, depth, s);
      if first.Ok? {
        VisitAllKeeps(g, max, roots, ids[1..], ancestors, depth, first.value);
      }
    }
  }

  // ---- the layers

  lemma {:induction false} MembersHave(s: seq<ProfileId>, i: nat)
    requires i < |s|
    ensures s[i] in Members(s)
  {
    if i < |s| - 1 {
      MembersHave(s[..|s| - 1], i);
    }
  }

  lemma {:induction false} MemberAt(s: seq<ProfileId>, id: ProfileId) returns (i: nat)
    requires id in Members(s)
    ensures i < |s| && s[i] == id
  {
    var n := |s| - 1;
    if s[n] == id {
      i := n;
    } else {
      i := MemberAt(s[..n], id);
    }
  }

  lemma {:induction false} LayeredAt(g: Graph, order: seq<ProfileId>, i: nat)
    requires Layered(g, order) && i < |order|
    ensures order[i] in g && order[i] !in Members(order[..i])
    ensures forall p :: p in g[order[i]] ==> p in Members(order[..i])
  {
    var n := |order| - 1;
    if i < n {
      LayeredAt(g, order[..n], i);
      assert order[..n][..i] == order[..i];
    }
  }

  /** A layer comes after everything it extends, directly or not: down a chain, positions fall. */
  lemma {:induction false} BasesComeFirst(g: Graph, order: seq<ProfileId>, c: seq<ProfileId>, j: nat) returns (i: nat)
    requires Layered(g, order) && Chain(g, c) && c != [] && j < |order| && c[0] == order[j]
    ensures i <= j && order[i] == c[|c| - 1] && (|c| > 1 ==> i < j)
  {
    var n := |c| - 1;
    if n == 0 {
      i := j;
    } else {
      var k := BasesComeFirst(g, order, c[..n], j);
      LayeredAt(g, order, k);
      i := MemberAt(order[..k], c[n]);
    }
  }

  lemma {:induction false} NoneTwice(g: Graph, order: seq<ProfileId>, i: nat, j: nat)
    requires Layered(g, order) && i < j < |order|
    ensures order[i] != order[j]
  {
    LayeredAt(g, order, j);
    MembersHave(order[..j], i);
  }

  lemma {:induction false} ChainTail(g: Graph, c: seq<ProfileId>, i: nat)
    requires Chain(g, c) && i < |c|
    ensures Chain(g, c[i..])
  {
    var n := |c| - 1;
    if i < n {
      ChainTail(g, c[..n], i);
      assert c[i..][..n - i] == c[..n][i..];
      assert c[i..][n - i] == c[n] && c[i..][n - i - 1] == c[n - 1];
    }
  }

  // ---- success and failure

  function RootSet(roots: seq<ProfileId>): set<ProfileId> { set id | id in roots }

  /** A chain from the roots that gives no cause for a fault. */
  ghost predicate Sound(g: Graph, c: seq<ProfileId>)
    requires c != []
  {
    c[|c| - 1] in g && c[|c| - 1] !in c[..|c| - 1]
  }

  lemma {:induction false} ResolveKeeps(g: Graph, max: int, roots: seq<ProfileId>)
    ensures Keeps(g, RootSet(roots), max, RootSet(roots), [], Visited([], {}),
      VisitAll(g, max, roots, [], 0, Visited([], {})))
  {
    forall id | id in roots
      ensures Under(g, RootSet(roots), [], 0, id)
    {
      assert [] + [id] == [id];
    }
    VisitAllKeeps(g, max, RootSet(roots), roots, [], 0, Visited([], {}));
  }

  /** Where every chain ends when the layers hold the roots. */
  lemma {:induction false} ChainsStayIn(g: Graph, roots: set<ProfileId>, order: seq<ProfileId>, c: seq<ProfileId>)
    requires Layered(g, order) && roots <= Members(order) && FromRoots(g, roots, c)
    ensures c[|c| - 1] in Members(order)
  {
    var j := MemberAt(order, c[0]);
    var i := BasesComeFirst(g, order, c, j);
    MembersHave(order, i);
  }

  lemma {:induction false} ChainsAreSound(g: Graph, roots: set<ProfileId>, order: seq<ProfileId>, c: seq<ProfileId>)
    requires Layered(g, order) && roots <= Members(order) && FromRoots(g, roots, c)
    ensures Sound(g, c)
  {
    var n := |c| - 1;
    var j := MemberAt(order, c[0]);
    var i := BasesComeFirst(g, order, c, j);
    LayeredAt(g, order, i);
    if c[n] in c[..n] {
      var k :| 0 <= k < n && c[k] == c[n];
      ChainTail(g, c, k);
      var m := BasesComeFirst(g, order, c[k..], i);
      NoneTwice(g, order, m, i);
    }
  }

  /** On success the layers are the profiles reachable from the roots, each once, each after
      everything it extends. No chain from the roots runs into a cycle or a missing profile,
      and every layer has a chain within the limit. */
  lemma {:induction false} SuccessListsTheReachable(g: Graph, max: int, roots: seq<ProfileId>)
    requires Resolve(g, max, roots).Ok?
    ensures Layered(g, Resolve(g, max, roots).value)
    ensures forall id :: id in Members(Resolve(g, max, roots).value) <==> Reachable(g, RootSet(roots), id)
    ensures forall c :: FromRoots(g, RootSet(roots), c) ==> Sound(g, c)
    ensures forall id :: Reachable(g, RootSet(roots), id) ==> Near(g, RootSet(roots), max, id)
  {
    ResolveKeeps(g, max, roots);
    var order := Resolve(g, max, roots).value;
    forall c | FromRoots(g, RootSet(roots), c)
      ensures Sound(g, c) && c[|c| - 1] in Members(order)
    {
      ChainsStayIn(g, RootSet(roots), order, c);
      ChainsAreSound(g, RootSet(roots), order, c);
    }
  }

  /** A fault names a chain of the graph, from a root, that ends in a missing profile, comes
      back to itself, or is longer than the limit. */
  lemma {:induction false} FaultIsReal(g: Graph, max: int, roots: seq<ProfileId>)
    requires Resolve(g, max, roots).Err?
    ensures Real(g, RootSet(roots), max, Resolve(g, max, roots).error)
  {
    ResolveKeeps(g, max, roots);
  }

  /** Every chain from the roots is sound and within the limit. */
  ghost predicate Orderly(g: Graph, max: int, roots: set<ProfileId>) {
    forall c :: FromRoots(g, roots, c) ==> Sound(g, c) && |c| - 1 <= max
  }

  lemma {:induction false} OrderlySucceeds(g: Graph, max: int, roots: seq<ProfileId>)
    requires Orderly(g, max, RootSet(roots))
    ensures Resolve(g, max, roots).Ok?
  {
    if Resolve(g, max, roots).Err? {
      FaultIsReal(g, max, roots);
    }
  }

  // ---- the limit, and the order things are listed in

  /** The same graph with the `extends` lists, and the roots, in another order. */
  ghost predicate Reordered(g: Graph, roots: seq<ProfileId>, g': Graph, roots': seq<ProfileId>) {
    && multiset(roots') == multiset(roots) && g'.Keys == g.Keys
    && forall p :: p in g ==> multiset(g'[p]) == multiset(g[p])
  }

  lemma {:induction false} SameMembers(a: seq<ProfileId>, b: seq<ProfileId>, x: ProfileId)
    requires multiset(a) == multiset(b)
    ensures x in a <==> x in b
  {
    assert x in a <==> x in multiset(a);
    assert x in b <==> x in multiset(b);
  }

  lemma {:induction false} ReorderedChain(
    g: Graph, roots: seq<ProfileId>, g': Graph, roots': seq<ProfileId>, c: seq<ProfileId>)
    requires Reordered(g, roots, g', roots') && Chain(g', c)
    ensures Chain(g, c)
    decreases |c|
  {
    var n := |c| - 1;
    if n > 0 {
      ReorderedChain(g, roots, g', roots', c[..n]);
      SameMembers(g'[c[n - 1]], g[c[n - 1]], c[n]);
    }
  }

  lemma {:induction false} ReorderedOrderly(
    g: Graph, max: int, roots: seq<ProfileId>, g': Graph, roots': seq<ProfileId>)
    requires Reordered(g, roots, g', roots') && Orderly(g, max, RootSet(roots))
    ensures Orderly(g', max, RootSet(roots'))
  {
    forall c | FromRoots(g', RootSet(roots'), c)
      ensures Sound(g', c) && |c| - 1 <= max
    {
      ReorderedChain(g, roots, g', roots', c);
      SameMembers(roots', roots, c[0]);
      assert FromRoots(g, RootSet(roots), c);
    }
  }

  function Others(s: seq<ProfileId>, x: ProfileId): seq<ProfileId> {
    if s == [] then [] else if s[0] == x then s[1..] else [s[0]] + Others(s[1..], x)
  }

  /** `x`, which is listed, moved to the front. */
  function First(s: seq<ProfileId>, x: ProfileId): seq<ProfileId> { [x] + Others(s, x) }

  lemma {:induction false} FirstReorders(s: seq<ProfileId>, x: ProfileId)
    requires x in s
    ensures multiset(First(s, x)) == multiset(s)
  {
    if s[0] == x {
      assert s == [x] + s[1..];
    } else {
      FirstReorders(s[1..], x);
      assert s == [s[0]] + s[1..];
      assert First(s, x) == [x] + ([s[0]] + Others(s[1..], x));
    }
  }

  /** The graph with each link of the chain listed first. */
  ghost function Steered(g: Graph, c: seq<ProfileId>): Graph
    requires Chain(g, c)
    decreases |c|
  {
    var n := |c| - 1;
    if n <= 0 then g else Steered(g, c[..n])[c[n - 1] := First(g[c[n - 1]], c[n])]
  }

  lemma {:induction false} SteeredReorders(g: Graph, c: seq<ProfileId>)
    requires Chain(g, c)
    ensures Steered(g, c).Keys == g.Keys
    ensures forall p :: p in g ==> multiset(Steered(g, c)[p]) == multiset(g[p])
    decreases |c|
  {
    var n := |c| - 1;
    if n > 0 {
      SteeredReorders(g, c[..n]);
      FirstReorders(g[c[n - 1]], c[n]);
    }
  }

  ghost predicate ListedFirst(g: Graph, c: seq<ProfileId>, i: nat)
    requires i + 1 < |c|
  {
    c[i] in g && g[c[i]] != [] && g[c[i]][0] == c[i + 1]
  }

  lemma {:induction false} SteeredLink(g: Graph, c: seq<ProfileId>, i: nat)
    requires Chain(g, c) && Distinct(c) && i + 1 < |c|
    ensures ListedFirst(Steered(g, c), c, i)
    decreases |c|
  {
    var n := |c| - 1;
    if i + 1 < n {
      SteeredLink(g, c[..n], i);
      assert c[i] != c[n - 1];
    }
  }

  /** Listed first at every level, the chain is walked to its end before anything else. */
  lemma {:induction false} WalkedToTheLimit(g: Graph, max: int, c: seq<ProfileId>, i: nat)
    requires i < |c| && |c| - 1 > max && Distinct(c)
    requires forall j :: 0 <= j < |c| - 1 ==> ListedFirst(g, c, j)
    ensures Visit(g, max, c[i], c[..i], i, Visited([], {})).Err?
    decreases |c| - i
  {
    if i <= max {
      assert c[..i + 1] == c[..i] + [c[i]];
      assert ListedFirst(g, c, i);
      WalkedToTheLimit(g, max, c, i + 1);
    }
  }

  lemma {:induction false} ChainPrefix(g: Graph, c: seq<ProfileId>, n: nat)
    requires Chain(g, c) && n <= |c|
    ensures Chain(g, c[..n])
    decreases |c|
  {
    if n < |c| {
      ChainPrefix(g, c[..|c| - 1], n);
      assert c[..|c| - 1][..n] == c[..n];
    } else {
      assert c[..n] == c;
    }
  }

  lemma {:induction false} SoundChainsDoNotRepeat(g: Graph, roots: set<ProfileId>, c: seq<ProfileId>)
    requires FromRoots(g, roots, c) && forall d :: FromRoots(g, roots, d) ==> Sound(g, d)
    ensures Distinct(c)
  {
    forall i, j | 0 <= i < j < |c|
      ensures c[i] != c[j]
    {
      ChainPrefix(g, c, j + 1);
      assert FromRoots(g, roots, c[..j + 1]);
      assert c[..j + 1][..j][i] == c[i];
    }
  }

  ghost predicate EveryOrderSucceeds(g: Graph, max: int, roots: seq<ProfileId>) {
    forall g', roots' :: Reordered(g, roots, g', roots') ==> Resolve(g', max, roots').Ok?
  }

  lemma {:induction false} SteeredFails(g: Graph, max: int, roots: seq<ProfileId>, c: seq<ProfileId>)
    requires c != [] && Chain(g, c) && Distinct(c) && |c| - 1 > max
    ensures Resolve(Steered(g, c), max, First(roots, c[0])).Err?
  {
    forall j | 0 <= j < |c| - 1
      ensures ListedFirst(Steered(g, c), c, j)
    {
      SteeredLink(g, c, j);
    }
    WalkedToTheLimit(Steered(g, c), max, c, 0);
    assert c[..0] == [];
  }

  /** With a chain over the limit, some order of the lists is refused. */
  lemma {:induction false} LongChainIsFound(g: Graph, max: int, roots: seq<ProfileId>, c: seq<ProfileId>)
    requires FromRoots(g, RootSet(roots), c) && |c| - 1 > max
    requires forall d :: FromRoots(g, RootSet(roots), d) ==> Sound(g, d)
    ensures !EveryOrderSucceeds(g, max, roots)
  {
    SoundChainsDoNotRepeat(g, RootSet(roots), c);
    SteeredReorders(g, c);
    FirstReorders(roots, c[0]);
    SteeredFails(g, max, roots, c);
    assert Reordered(g, roots, Steered(g, c), First(roots, c[0]));
  }

  /** The limit, exactly: the graph is orderly if and only if it resolves whatever the order of
      the roots and of each `extends` list. In one order only the limit can be missed, but not
      where no profile is reached by two chains. */
  lemma {:induction false} DepthLimitExactly(g: Graph, max: int, roots: seq<ProfileId>)
    ensures Orderly(g, max, RootSet(roots)) <==> EveryOrderSucceeds(g, max, roots)
    ensures OneWayToEach(g, RootSet(roots)) ==> (Resolve(g, max, roots).Ok? <==> Orderly(g, max, RootSet(roots)))
  {
    if Orderly(g, max, RootSet(roots)) {
      forall g', roots' | Reordered(g, roots, g', roots')
        ensures Resolve(g', max, roots').Ok?
      {
        ReorderedOrderly(g, max, roots, g', roots');
        OrderlySucceeds(g', max, roots');
      }
    } else if EveryOrderSucceeds(g, max, roots) {
      assert Reordered(g, roots, g, roots);
      SuccessListsTheReachable(g, max, roots);
      var c :| FromRoots(g, RootSet(roots), c) && !(Sound(g, c) && |c| - 1 <= max);
      LongChainIsFound(g, max, roots, c);
    }
    if OneWayToEach(g, RootSet(roots)) {
      ExactWithoutSharing(g, max, roots);
    }
  }

  /** No profile is reached by two chains. */
  ghost predicate OneWayToEach(g: Graph, roots: set<ProfileId>) {
    forall c, d :: FromRoots(g, roots, c) && FromRoots(g, roots, d) && c[|c| - 1] == d[|d| - 1] ==> c == d
  }

  /** Where no profile is reached by two chains, the limit is exact. */
  lemma {:induction false} ExactWithoutSharing(g: Graph, max: int, roots: seq<ProfileId>)
    requires OneWayToEach(g, RootSet(roots))
    ensures Resolve(g, max, roots).Ok? <==> Orderly(g, max, RootSet(roots))
  {
    if Resolve(g, max, roots).Ok? {
      SuccessListsTheReachable(g, max, roots);
      forall c | FromRoots(g, RootSet(roots), c)
        ensures Sound(g, c) && |c| - 1 <= max
      {
        assert Reachable(g, RootSet(roots), c[|c| - 1]);
        var d :| FromRoots(g, RootSet(roots), d) && d[|d| - 1] == c[|c| - 1] && |d| - 1 <= max;
        assert c == d;
      }
    } else if Orderly(g, max, RootSet(roots)) {
      OrderlySucceeds(g, max, roots);
    }
  }

  /** Where profiles are shared it is not: a chain over the limit passes when its lower end was
      listed before, by a shorter way. */
  lemma {:induction false} SharedChainEscapesTheLimit()
    ensures var g: Graph := map["a" := ["b"], "b" := ["c"], "c" := []];
      && Resolve(g, 1, ["b", "a"]) == Ok(["c", "b", "a"])
      && Resolve(g, 1, ["a", "b"]) == Err(TooDeep(["a", "b", "c"]))
      && !Orderly(g, 1, {"a", "b"})
  {
    var g: Graph := map["a" := ["b"], "b" := ["c"], "c" := []];
    assert [] + ["a"] == ["a"] && [] + ["b"] == ["b"] && [] + ["c"] == ["c"];
    assert ["a"] + ["b"] == ["a", "b"] && ["a", "b"] + ["c"] == ["a", "b", "c"];
    assert ["c"] + ["b"] == ["c", "b"] && ["c", "b"] + ["a"] == ["c", "b", "a"];
    assert {} + {"c"} == {"c"} && {"c"} + {"b"} == {"c", "b"} && {"c", "b"} + {"a"} == {"a", "b", "c"};
    var start := Visited([], {});
    var c1 := Visited(["c"], {"c"});
    var b1 := Visited(["c", "b"], {"c", "b"});
    assert Visit(g, 1, "c", ["b"], 1, start) == Ok(c1);
    assert VisitAll(g, 1, ["c"], ["b"], 1, start) == Ok(c1);
    assert Visit(g, 1, "b", [], 0, start) == Ok(b1);
    assert VisitAll(g, 1, ["b"], ["a"], 1, b1) == Ok(b1);
    assert Visit(g, 1, "a", [], 0, b1) == Ok(Visited(["c", "b", "a"], {"a", "b", "c"}));
    assert ["b", "a"][1..] == ["a"];
    assert Visit(g, 1, "c", ["a", "b"], 2, start) == Err(TooDeep(["a", "b", "c"]));
    assert VisitAll(g, 1, ["c"], ["a", "b"], 2, start) == Err(TooDeep(["a", "b", "c"]));
    assert Visit(g, 1, "b", ["a"], 1, start) == Err(TooDeep(["a", "b", "c"]));
    assert VisitAll(g, 1, ["b"], ["a"], 1, start) == Err(TooDeep(["a", "b", "c"]));
    var c := ["a", "b", "c"];
    assert c[..2] == ["a", "b"] && c[..2][..1] == ["a"];
    assert FromRoots(g, {"a", "b"}, c);
  }
}
