/** Causal edges, their adjacency lists, and reachability along them. */
module EdgeLists {
  import opened NodeIds
  import opened Ordering

  datatype EdgeType = Exec | OpenRead | OpenWrite | Connect | Fork

  datatype Edge = Edge(id: string, from: string, to: string, kind: EdgeType)

  /** Reading an absent key of a Go map of slices gives the empty slice. */
  function Listed<K, V>(m: map<K, seq<V>>, k: K): seq<V> {
    if k in m then m[k] else []
  }

  /** The edges that leave a node, oldest first. */
  ghost function From(edges: seq<Edge>, id: string): seq<Edge> {
    if edges == [] then []
    else
      var last := edges[|edges| - 1];
      From(edges[..|edges| - 1], id) + if last.from == id then [last] else []
  }

  /** The edges that enter a node, oldest first. */
  ghost function Into(edges: seq<Edge>, id: string): seq<Edge> {
    if edges == [] then []
    else
      var last := edges[|edges| - 1];
      Into(edges[..|edges| - 1], id) + if last.to == id then [last] else []
  }

  lemma AppendEdge(edges: seq<Edge>, e: Edge, id: string)
    ensures From(edges + [e], id) == From(edges, id) + if e.from == id then [e] else []
    ensures Into(edges + [e], id) == Into(edges, id) + if e.to == id then [e] else []
  {
    assert (edges + [e])[..|edges|] == edges;
  }

  /** Edge IDs count up from e1. */
  ghost predicate Numbered(edges: seq<Edge>) {
    forall i :: 0 <= i < |edges| ==> edges[i].id == EdgeId(i + 1)
  }

  ghost predicate OutListed(edges: seq<Edge>, outEdges: map<string, seq<Edge>>) {
    forall id :: Listed(outEdges, id) == From(edges, id)
  }

  ghost predicate InListed(edges: seq<Edge>, inEdges: map<string, seq<Edge>>) {
    forall id :: Listed(inEdges, id) == Into(edges, id)
  }

  /** The adjacency lists split the edge list, once by source and once by target. */
  ghost predicate EdgesIndexed(
      edges: seq<Edge>, outEdges: map<string, seq<Edge>>, inEdges: map<string, seq<Edge>>, counter: nat) {
    |edges| == counter && Numbered(edges) && OutListed(edges, outEdges) && InListed(edges, inEdges)
  }

  lemma AppendNumbered(edges: seq<Edge>, e: Edge)
    requires Numbered(edges) && e.id == EdgeId(|edges| + 1)
    ensures Numbered(edges + [e])
  {
  }

  lemma AppendOutListed(edges: seq<Edge>, outEdges: map<string, seq<Edge>>, e: Edge)
    requires OutListed(edges, outEdges)
    ensures OutListed(edges + [e], outEdges[e.from := Listed(outEdges, e.from) + [e]])
  {
    forall id
      ensures Listed(outEdges[e.from := Listed(outEdges, e.from) + [e]], id) == From(edges + [e], id)
    {
      AppendEdge(edges, e, id);
      assert From(edges, id) == Listed(outEdges, id);
    }
  }

  lemma AppendInListed(edges: seq<Edge>, inEdges: map<string, seq<Edge>>, e: Edge)
    requires InListed(edges, inEdges)
    ensures InListed(edges + [e], inEdges[e.to := Listed(inEdges, e.to) + [e]])
  {
    forall id
      ensures Listed(inEdges[e.to := Listed(inEdges, e.to) + [e]], id) == Into(edges + [e], id)
    {
      AppendEdge(edges, e, id);
      assert Into(edges, id) == Listed(inEdges, id);
    }
  }

  lemma IndexedEdgesDistinct(
      edges: seq<Edge>, outEdges: map<string, seq<Edge>>, inEdges: map<string, seq<Edge>>, counter: nat)
    requires EdgesIndexed(edges, outEdges, inEdges, counter)
    ensures NoDuplicates(edges)
  {
    forall i, j | 0 <= i < j < |edges|
      ensures edges[i] != edges[j]
    {
      if edges[i].id == edges[j].id {
        EdgeIdInjective(i + 1, j + 1);
      }
    }
  }

  lemma {:induction false} FromMembers(edges: seq<Edge>, id: string)
    requires NoDuplicates(edges)
    ensures NoDuplicates(From(edges, id))
    ensures forall e :: e in From(edges, id) <==> e in edges && e.from == id
  {
    if edges != [] {
      FromMembers(edges[..|edges| - 1], id);
      assert edges == edges[..|edges| - 1] + [edges[|edges| - 1]];
    }
  }

  lemma {:induction false} IntoMembers(edges: seq<Edge>, id: string)
    requires NoDuplicates(edges)
    ensures NoDuplicates(Into(edges, id))
    ensures forall e :: e in Into(edges, id) <==> e in edges && e.to == id
  {
    if edges != [] {
      IntoMembers(edges[..|edges| - 1], id);
      assert edges == edges[..|edges| - 1] + [edges[|edges| - 1]];
    }
  }

  // ---- reachability ----

  ghost predicate Linked(edges: seq<Edge>, a: string, b: string) {
    exists e :: e in edges && e.from == a && e.to == b
  }

  ghost predicate ReachableIn(edges: seq<Edge>, a: string, b: string, n: nat)
    decreases n
  {
    if n == 0 then a == b else exists m :: ReachableIn(edges, a, m, n - 1) && Linked(edges, m, b)
  }

  ghost predicate Reachable(edges: seq<Edge>, a: string, b: string) {
    exists n: nat :: ReachableIn(edges, a, b, n)
  }

  lemma ReachableSelf(edges: seq<Edge>, a: string)
    ensures Reachable(edges, a, a)
  {
    assert ReachableIn(edges, a, a, 0);
  }

  lemma ReachableStep(edges: seq<Edge>, a: string, e: Edge)
    requires e in edges && Reachable(edges, a, e.from)
    ensures Reachable(edges, a, e.to)
  {
    var n: nat :| ReachableIn(edges, a, e.from, n);
    assert Linked(edges, e.from, e.to);
    assert ReachableIn(edges, a, e.to, n + 1);
  }

  lemma {:induction false} ClosedSetHoldsReachableIn(edges: seq<Edge>, s: set<string>, a: string, b: string, n: nat)
    requires a in s && (forall e :: e in edges && e.from in s ==> e.to in s)
    requires ReachableIn(edges, a, b, n)
    ensures b in s
    decreases n
  {
    if n > 0 {
      var m :| ReachableIn(edges, a, m, n - 1) && Linked(edges, m, b);
      ClosedSetHoldsReachableIn(edges, s, a, m, n - 1);
    }
  }

  lemma ClosedSetHoldsReachable(edges: seq<Edge>, s: set<string>, a: string)
    requires a in s && (forall e :: e in edges && e.from in s ==> e.to in s)
    ensures forall b :: Reachable(edges, a, b) ==> b in s
  {
    forall b | Reachable(edges, a, b)
      ensures b in s
    {
      var n: nat :| ReachableIn(edges, a, b, n);
      ClosedSetHoldsReachableIn(edges, s, a, b, n);
    }
  }

  lemma {:induction false} ReachableOn(edges: seq<Edge>, a: string, b: string, c: string, n: nat)
    requires Reachable(edges, a, b) && ReachableIn(edges, b, c, n)
    ensures Reachable(edges, a, c)
    decreases n
  {
    if n > 0 {
      var m :| ReachableIn(edges, b, m, n - 1) && Linked(edges, m, c);
      ReachableOn(edges, a, b, m, n - 1);
      var e :| e in edges && e.from == m && e.to == c;
      ReachableStep(edges, a, e);
    }
  }

  lemma ReachableTransitive(edges: seq<Edge>, a: string, b: string, c: string)
    requires Reachable(edges, a, b) && Reachable(edges, b, c)
    ensures Reachable(edges, a, c)
  {
    var n: nat :| ReachableIn(edges, b, c, n);
    ReachableOn(edges, a, b, c, n);
  }

  // ---- cycles ----

  /** No edge leads back to where it came from. */
  ghost predicate AcyclicEdges(edges: seq<Edge>) {
    forall e :: e in edges ==> !Reachable(edges, e.to, e.from)
  }

  lemma {:induction false} ReachableInMore(edges: seq<Edge>, e: Edge, a: string, b: string, n: nat)
    requires ReachableIn(edges, a, b, n)
    ensures Reachable(edges + [e], a, b)
    decreases n
  {
    if n == 0 {
      ReachableSelf(edges + [e], a);
    } else {
      var m :| ReachableIn(edges, a, m, n - 1) && Linked(edges, m, b);
      ReachableInMore(edges, e, a, m, n - 1);
      var f :| f in edges && f.from == m && f.to == b;
      ReachableStep(edges + [e], a, f);
    }
  }

  lemma {:induction false} ReachableByNewEdge(edges: seq<Edge>, e: Edge, a: string, b: string, n: nat)
    requires ReachableIn(edges + [e], a, b, n)
    ensures Reachable(edges, a, b) || (Reachable(edges, a, e.from) && Reachable(edges, e.to, b))
    decreases n
  {
    if n == 0 {
      ReachableSelf(edges, a);
    } else {
      var m :| ReachableIn(edges + [e], a, m, n - 1) && Linked(edges + [e], m, b);
      ReachableByNewEdge(edges, e, a, m, n - 1);
      var f :| f in edges + [e] && f.from == m && f.to == b;
      if f in edges {
        if Reachable(edges, a, m) {
          ReachableStep(edges, a, f);
        } else {
          ReachableStep(edges, e.to, f);
        }
      } else {
        ReachableSelf(edges, e.to);
      }
    }
  }

  /** A path over one more edge takes it or does not, and need take it once only. */
  lemma ReachableWithEdge(edges: seq<Edge>, e: Edge, a: string, b: string)
    ensures Reachable(edges + [e], a, b) <==>
            Reachable(edges, a, b) || (Reachable(edges, a, e.from) && Reachable(edges, e.to, b))
  {
    if Reachable(edges + [e], a, b) {
      var n: nat :| ReachableIn(edges + [e], a, b, n);
      ReachableByNewEdge(edges, e, a, b, n);
    }
    if Reachable(edges, a, b) {
      var n: nat :| ReachableIn(edges, a, b, n);
      ReachableInMore(edges, e, a, b, n);
    }
    if Reachable(edges, a, e.from) && Reachable(edges, e.to, b) {
      var m: nat :| ReachableIn(edges, a, e.from, m);
      ReachableInMore(edges, e, a, e.from, m);
      var n: nat :| ReachableIn(edges, e.to, b, n);
      ReachableInMore(edges, e, e.to, b, n);
      ReachableStep(edges + [e], a, e);
      ReachableTransitive(edges + [e], a, e.to, b);
    }
  }

  /** An old edge on a cycle of the grown list: there was a cycle before, or the new edge closes one. */
  lemma OldEdgeOnCycle(edges: seq<Edge>, e: Edge, f: Edge)
    requires f in edges && Reachable(edges + [e], f.to, f.from) && !Reachable(edges, f.to, f.from)
    ensures Reachable(edges, e.to, e.from)
  {
    ReachableWithEdge(edges, e, f.to, f.from);
    ReachableStep(edges, e.to, f);
    ReachableTransitive(edges, e.to, f.to, e.from);
  }

  /** One more edge keeps the graph a DAG exactly when it led to nowhere its source can be reached from. */
  lemma AppendAcyclicIff(edges: seq<Edge>, e: Edge)
    ensures AcyclicEdges(edges + [e]) <==> AcyclicEdges(edges) && !Reachable(edges, e.to, e.from)
  {
    forall f | f in edges && Reachable(edges, f.to, f.from)
      ensures Reachable(edges + [e], f.to, f.from)
    {
      ReachableWithEdge(edges, e, f.to, f.from);
    }
    forall f | f in edges + [e] && Reachable(edges + [e], f.to, f.from)
      ensures Reachable(edges, e.to, e.from) || (f in edges && Reachable(edges, f.to, f.from))
    {
      if f in edges {
        if !Reachable(edges, f.to, f.from) {
          OldEdgeOnCycle(edges, e, f);
        }
      } else {
        ReachableWithEdge(edges, e, e.to, e.from);
      }
    }
    if Reachable(edges, e.to, e.from) {
      ReachableWithEdge(edges, e, e.to, e.from);
      assert e in edges + [e];
    }
  }

  // ---- the state of a breadth-first search ----

  /** `done` is expanded and `queue` is not; together, once each, they are the visited IDs; all of
      them are reachable, and `found` holds the outgoing edges of `done`, once each. */
  ghost predicate Searching(
      edges: seq<Edge>, root: string, queue: seq<string>, done: set<string>, visited: set<string>, found: seq<Edge>) {
    && Frontier(edges, root, queue, done, visited)
    && (forall e :: e in edges && e.from in done ==> e.to in visited)
    && (forall e :: e in found <==> e in edges && e.from in done)
    && NoDuplicates(found)
  }

  ghost predicate Frontier(
      edges: seq<Edge>, root: string, queue: seq<string>, done: set<string>, visited: set<string>) {
    && NoDuplicates(queue) && root in visited
    && (forall x :: x in queue ==> x !in done)
    && (forall x :: x in visited <==> x in queue || x in done)
    && (forall x :: x in visited ==> Reachable(edges, root, x))
  }

  lemma SearchStarts(edges: seq<Edge>, root: string)
    ensures Searching(edges, root, [root], {}, {root}, [])
  {
    ReachableSelf(edges, root);
  }

  lemma TakeFront(edges: seq<Edge>, root: string, queue: seq<string>, done: set<string>, visited: set<string>)
    requires Frontier(edges, root, queue, done, visited) && queue != []
    ensures Frontier(edges, root, queue[1..], done + {queue[0]}, visited)
    ensures Reachable(edges, root, queue[0]) && queue[0] !in done
  {
    assert queue == [queue[0]] + queue[1..];
    assert forall x :: x in queue[1..] ==> x != queue[0];
  }

  /** The first i outgoing edges of the front have been collected and their targets visited. */
  ghost predicate Expanding(
      edges: seq<Edge>, root: string, front: string, i: nat,
      queue: seq<string>, done: set<string>, visited: set<string>, found: seq<Edge>,
      seenBefore: set<string>, foundBefore: seq<Edge>)
    requires i <= |From(edges, front)|
  {
    && Frontier(edges, root, queue, done, visited) && front in done && seenBefore <= visited
    && (forall k :: 0 <= k < i ==> From(edges, front)[k].to in visited)
    && found == foundBefore + From(edges, front)[..i]
  }

  lemma ExpandOn(
      edges: seq<Edge>, root: string, front: string, i: nat,
      queue: seq<string>, done: set<string>, visited: set<string>, found: seq<Edge>,
      seenBefore: set<string>, foundBefore: seq<Edge>)
    requires NoDuplicates(edges) && i < |From(edges, front)|
    requires Expanding(edges, root, front, i, queue, done, visited, found, seenBefore, foundBefore)
    ensures var e := From(edges, front)[i];
            if e.to in visited then
              Expanding(edges, root, front, i + 1, queue, done, visited, found + [e], seenBefore, foundBefore)
            else
              Expanding(edges, root, front, i + 1, queue + [e.to], done, visited + {e.to}, found + [e],
                        seenBefore, foundBefore)
  {
    FromMembers(edges, front);
    var e := From(edges, front)[i];
    assert e in From(edges, front);
    ReachableStep(edges, root, e);
    assert From(edges, front)[..i + 1] == From(edges, front)[..i] + [e];
  }

  lemma FrontExpanded(
      edges: seq<Edge>, root: string, front: string,
      queue: seq<string>, done: set<string>, visited: set<string>, found: seq<Edge>,
      queueBefore: seq<string>, seenBefore: set<string>, foundBefore: seq<Edge>)
    requires NoDuplicates(edges) && front !in done
    requires Searching(edges, root, queueBefore, done, seenBefore, foundBefore)
    requires Expanding(edges, root, front, |From(edges, front)|, queue, done + {front}, visited, found,
                       seenBefore, foundBefore)
    ensures Searching(edges, root, queue, done + {front}, visited, found)
  {
    FromMembers(edges, front);
    assert found == foundBefore + From(edges, front);
    forall e | e in From(edges, front)
      ensures e.to in visited
    {
      var k :| 0 <= k < |From(edges, front)| && From(edges, front)[k] == e;
    }
  }

  lemma SearchEnds(edges: seq<Edge>, root: string, done: set<string>, visited: set<string>, found: seq<Edge>)
    requires Searching(edges, root, [], done, visited, found)
    ensures forall x :: x in done <==> Reachable(edges, root, x)
  {
    ClosedSetHoldsReachable(edges, visited, root);
    assert visited == done;
  }
}
