/**
 The search for the config node to retry from: breadth first against the direction of the connections,
 over any graph, with cycles, duplicate connections and connections to nodes that do not exist.
*/
module UpstreamSearch {
  import opened Wrappers

  datatype Kind = Config | OtherKind

  datatype Node = Node(id: string, kind: Kind)

  datatype Connection = Connection(from: string, to: string)

  // ---------- What is searched ----------

  /** nodes.find: the first node with an id. */
  function Find(nodes: seq<Node>, id: string): (r: Option<Node>)
    ensures r.Some? ==> r.value in nodes && r.value.id == id
    ensures r.None? ==> forall n :: n in nodes ==> n.id != id
  {
    if nodes == [] then None else if nodes[0].id == id then Some(nodes[0]) else Find(nodes[1..], id)
  }

  predicate IsConfig(nodes: seq<Node>, id: string) {
    Find(nodes, id).Some? && Find(nodes, id).value.kind == Config
  }

  predicate Linked(connections: seq<Connection>, from: string, to: string) {
    Connection(from, to) in connections
  }

  /** from reaches to over exactly n connections. */
  ghost predicate Reaches(connections: seq<Connection>, from: string, to: string, n: nat)
    decreases n
  {
    if n == 0 then from == to
    else exists mid :: Linked(connections, mid, to) && Reaches(connections, from, mid, n - 1)
  }

  /** The sources of the connections into a node, in the order of the connections. */
  function Sources(connections: seq<Connection>, to: string): (r: seq<string>)
    ensures forall id :: id in r <==> Linked(connections, id, to)
    ensures |r| <= |connections|
  {
    if connections == [] then []
    else
      var rest := Sources(connections[1..], to);
      if connections[0].to == to then [connections[0].from] + rest else rest
  }

  /** A config node that is upstream by n connections, with none nearer. */
  ghost predicate Nearest(nodes: seq<Node>, connections: seq<Connection>, start: string, id: string, n: nat) {
    && n >= 1 && IsConfig(nodes, id) && Reaches(connections, id, start, n)
    && forall other, m: nat :: 1 <= m < n && Reaches(connections, other, start, m) ==> !IsConfig(nodes, other)
  }

  ghost predicate SomeConfigUpstream(nodes: seq<Node>, connections: seq<Connection>, start: string) {
    exists id, n: nat :: n >= 1 && IsConfig(nodes, id) && Reaches(connections, id, start, n)
  }

  // ---------- Paths from the other end ----------

  lemma {:induction false} ReachesStep(connections: seq<Connection>, a: string, b: string, c: string, n: nat)
    requires Linked(connections, a, b) && Reaches(connections, b, c, n)
    ensures Reaches(connections, a, c, n + 1)
    decreases n
  {
    if n == 0 {
      assert Linked(connections, a, c) && Reaches(connections, a, a, 0);
    } else {
      var mid :| Linked(connections, mid, c) && Reaches(connections, b, mid, n - 1);
      ReachesStep(connections, a, b, mid, n - 1);
    }
  }

  lemma {:induction false} ReachesFirst(connections: seq<Connection>, a: string, c: string, n: nat) returns (b: string)
    requires n >= 1 && Reaches(connections, a, c, n)
    ensures Linked(connections, a, b) && Reaches(connections, b, c, n - 1)
    decreases n
  {
    var mid :| Linked(connections, mid, c) && Reaches(connections, a, mid, n - 1);
    if n == 1 {
      b := c;
    } else {
      b := ReachesFirst(connections, a, mid, n - 1);
    }
  }

  // ---------- The invariant of the search ----------

  /** The queue with the distance at which each entry was put there: in order, over at most two distances. */
  ghost predicate InOrder(queue: seq<string>, depths: seq<nat>) {
    && |queue| == |depths|
    && (forall i, j :: 0 <= i < j < |depths| ==> depths[i] <= depths[j])
    && (forall i :: 0 <= i < |depths| ==> depths[i] <= depths[0] + 1)
  }

  /** An id is visited or queued within a distance. */
  ghost predicate Known(visited: map<string, nat>, queue: seq<string>, depths: seq<nat>, id: string, n: nat)
    requires |queue| == |depths|
  {
    (id in visited && visited[id] <= n) || exists i :: 0 <= i < |queue| && queue[i] == id && depths[i] <= n
  }

  ghost predicate Queued(connections: seq<Connection>, start: string, queue: seq<string>, depths: seq<nat>) {
    && InOrder(queue, depths)
    && forall i :: 0 <= i < |queue| ==> depths[i] >= 1 && Reaches(connections, queue[i], start, depths[i])
  }

  /** Whatever leads into the start, or into a visited id, is known no farther than one step more. */
  ghost predicate Covered(connections: seq<Connection>, start: string, visited: map<string, nat>, queue: seq<string>, depths: seq<nat>)
    requires |queue| == |depths|
  {
    && (forall a :: Linked(connections, a, start) ==> Known(visited, queue, depths, a, 1))
    && (forall a, b :: b in visited && Linked(connections, a, b) ==> Known(visited, queue, depths, a, visited[b] + 1))
  }

  /** visited has the distance of every visited id; nothing visited is a config node. */
  ghost predicate Searching(nodes: seq<Node>, connections: seq<Connection>, start: string,
                            visited: map<string, nat>, queue: seq<string>, depths: seq<nat>) {
    && Queued(connections, start, queue, depths)
    && (forall id :: id in visited ==> !IsConfig(nodes, id) && (queue != [] ==> visited[id] <= depths[0]))
    && Covered(connections, start, visited, queue, depths)
  }

  /** Everything upstream is visited, or the queue still has an entry that is not farther away. */
  lemma {:induction false} NothingIsMissed(nodes: seq<Node>, connections: seq<Connection>, start: string,
                                           visited: map<string, nat>, queue: seq<string>, depths: seq<nat>, id: string, n: nat)
    requires Searching(nodes, connections, start, visited, queue, depths)
    requires n >= 1 && Reaches(connections, id, start, n)
    ensures (id in visited && visited[id] <= n) || exists i :: 0 <= i < |queue| && depths[i] <= n
    decreases n
  {
    var b := ReachesFirst(connections, id, start, n);
    if n == 1 {
      assert Known(visited, queue, depths, id, 1);
    } else {
      NothingIsMissed(nodes, connections, start, visited, queue, depths, b, n - 1);
      if b in visited && visited[b] <= n - 1 {
        assert Known(visited, queue, depths, id, visited[b] + 1);
      }
    }
  }

  lemma FoundIsNearest(nodes: seq<Node>, connections: seq<Connection>, start: string,
                       visited: map<string, nat>, queue: seq<string>, depths: seq<nat>)
    requires Searching(nodes, connections, start, visited, queue, depths) && queue != [] && IsConfig(nodes, queue[0])
    ensures Nearest(nodes, connections, start, queue[0], depths[0])
  {
    forall other, m: nat | 1 <= m < depths[0] && Reaches(connections, other, start, m)
      ensures !IsConfig(nodes, other)
    {
      NothingIsMissed(nodes, connections, start, visited, queue, depths, other, m);
    }
  }

  lemma ExhaustedIsNone(nodes: seq<Node>, connections: seq<Connection>, start: string, visited: map<string, nat>)
    requires Searching(nodes, connections, start, visited, [], [])
    ensures !SomeConfigUpstream(nodes, connections, start)
  {
    forall id, n: nat | n >= 1 && Reaches(connections, id, start, n)
      ensures !IsConfig(nodes, id)
    {
      NothingIsMissed(nodes, connections, start, visited, [], [], id, n);
    }
  }

  function Same(n: nat, depth: nat): seq<nat> {
    seq(n, _ => depth)
  }

  lemma Begins(nodes: seq<Node>, connections: seq<Connection>, start: string)
    ensures var queue := Sources(connections, start); Searching(nodes, connections, start, map[], queue, Same(|queue|, 1))
  {
    hide Reaches, Linked, Sources;
    var queue := Sources(connections, start);
    var depths := Same(|queue|, 1);
    forall i | 0 <= i < |queue| ensures Reaches(connections, queue[i], start, 1) { ReachesNext(connections, queue[i], start); }
    forall a | Linked(connections, a, start)
      ensures Known(map[], queue, depths, a, 1)
    {
      var i :| 0 <= i < |queue| && queue[i] == a;
    }
  }

  lemma ReachesNext(connections: seq<Connection>, a: string, b: string)
    requires Linked(connections, a, b)
    ensures Reaches(connections, a, b, 1)
  {
    assert Reaches(connections, a, a, 0);
  }

  /** An id that was visited before is dropped. */
  lemma Drops(nodes: seq<Node>, connections: seq<Connection>, start: string,
              visited: map<string, nat>, queue: seq<string>, depths: seq<nat>)
    requires Searching(nodes, connections, start, visited, queue, depths) && queue != [] && queue[0] in visited
    ensures Searching(nodes, connections, start, visited, queue[1..], depths[1..])
  {
    forall a, n: nat | Known(visited, queue, depths, a, n)
      ensures Known(visited, queue[1..], depths[1..], a, n)
    {
      if i :| 0 <= i < |queue| && queue[i] == a && depths[i] <= n {
        if i > 0 {
          assert queue[1..][i - 1] == a && depths[1..][i - 1] <= n;
        } else {
          assert a in visited && visited[a] <= n;
        }
      }
    }
  }

  /** A new id that is no config node is visited, and its sources are queued one farther away. */
  lemma Visits(nodes: seq<Node>, connections: seq<Connection>, start: string,
               visited: map<string, nat>, queue: seq<string>, depths: seq<nat>, more: seq<string>)
    requires Searching(nodes, connections, start, visited, queue, depths)
    requires queue != [] && queue[0] !in visited && !IsConfig(nodes, queue[0]) && more == Sources(connections, queue[0])
    ensures Searching(nodes, connections, start, visited[queue[0] := depths[0]],
                      queue[1..] + more, depths[1..] + Same(|more|, depths[0] + 1))
  {
    VisitsInOrder(connections, start, queue, depths, more);
    VisitsCovers(connections, start, visited, queue, depths, more);
  }

  lemma VisitsCovers(connections: seq<Connection>, start: string,
                     visited: map<string, nat>, queue: seq<string>, depths: seq<nat>, more: seq<string>)
    requires |queue| == |depths| && Covered(connections, start, visited, queue, depths)
    requires queue != [] && queue[0] !in visited && more == Sources(connections, queue[0])
    ensures Covered(connections, start, visited[queue[0] := depths[0]],
                    queue[1..] + more, depths[1..] + Same(|more|, depths[0] + 1))
  {
    var visited', queue', depths' := visited[queue[0] := depths[0]], queue[1..] + more, depths[1..] + Same(|more|, depths[0] + 1);
    forall a | Linked(connections, a, start)
      ensures Known(visited', queue', depths', a, 1)
    {
      StillKnown(visited, queue, depths, more, a, 1);
    }
    forall a, b | b in visited' && Linked(connections, a, b)
      ensures Known(visited', queue', depths', a, visited'[b] + 1)
    {
      if b == queue[0] {
        var k :| 0 <= k < |more| && more[k] == a;
        assert queue'[|queue| - 1 + k] == a && depths'[|queue| - 1 + k] == depths[0] + 1;
      } else {
        StillKnown(visited, queue, depths, more, a, visited[b] + 1);
      }
    }
  }

  lemma VisitsInOrder(connections: seq<Connection>, start: string, queue: seq<string>, depths: seq<nat>, more: seq<string>)
    requires Queued(connections, start, queue, depths) && queue != [] && more == Sources(connections, queue[0])
    ensures var queue', depths' := queue[1..] + more, depths[1..] + Same(|more|, depths[0] + 1);
            Queued(connections, start, queue', depths') && (queue' != [] ==> depths[0] <= depths'[0])
  {
    var queue', depths' := queue[1..] + more, depths[1..] + Same(|more|, depths[0] + 1);
    forall i | 0 <= i < |queue'|
      ensures depths'[i] >= 1 && Reaches(connections, queue'[i], start, depths'[i])
    {
      if i < |queue| - 1 {
        assert queue'[i] == queue[i + 1] && depths'[i] == depths[i + 1];
      } else {
        assert queue'[i] == more[i - (|queue| - 1)];
        ReachesStep(connections, queue'[i], queue[0], start, depths[0]);
      }
    }
  }

  lemma StillKnown(visited: map<string, nat>, queue: seq<string>, depths: seq<nat>, more: seq<string>, a: string, n: nat)
    requires |queue| == |depths| && queue != [] && queue[0] !in visited && Known(visited, queue, depths, a, n)
    ensures Known(visited[queue[0] := depths[0]], queue[1..] + more, depths[1..] + Same(|more|, depths[0] + 1), a, n)
  {
    if !(a in visited && visited[a] <= n) {
      var i :| 0 <= i < |queue| && queue[i] == a && depths[i] <= n;
      if i > 0 {
        assert (queue[1..] + more)[i - 1] == a && (depths[1..] + Same(|more|, depths[0] + 1))[i - 1] <= n;
      }
    }
  }

  // ---------- The search ----------

  function Froms(connections: seq<Connection>): set<string> {
    set c | c in connections :: c.from
  }

  /**
   It ends on every graph; it returns null exactly when no config node is upstream, and otherwise one
   that is upstream by the fewest connections.
  */
  method FindRetrySourceNode(nodeId: string, nodes: seq<Node>, connections: seq<Connection>) returns (found: Option<Node>)
    ensures found.None? <==> !SomeConfigUpstream(nodes, connections, nodeId)
    ensures found.Some? ==>
      && Find(nodes, found.value.id) == found
      && exists n: nat :: Nearest(nodes, connections, nodeId, found.value.id, n)
  {
    var queue := Sources(connections, nodeId);
    var visited: set<string> := {};
    ghost var depths := Same(|queue|, 1);
    ghost var distance: map<string, nat> := map[];
    Begins(nodes, connections, nodeId);
    SourcesAreFroms(connections, nodeId);
    while queue != []
      invariant distance.Keys == visited
      invariant AllFrom(connections, queue)
      invariant Searching(nodes, connections, nodeId, distance, queue, depths)
      decreases |Froms(connections) - visited|, |queue|
    {
      var id := queue[0];
      if id in visited {
        Drops(nodes, connections, nodeId, distance, queue, depths);
        queue, depths := queue[1..], depths[1..];
      } else {
        OneLess(connections, visited, queue);
        visited := visited + {id};
        var node := Find(nodes, id);
        if node.Some? && node.value.kind == Config {
          FoundIsNearest(nodes, connections, nodeId, distance, queue, depths);
          return node;
        }
        var more := Sources(connections, id);
        Visits(nodes, connections, nodeId, distance, queue, depths, more);
        SourcesAreFroms(connections, id);
        KeysGrow(distance, id, depths[0]);
        distance := distance[id := depths[0]];
        queue, depths := queue[1..] + more, depths[1..] + Same(|more|, depths[0] + 1);
      }
    }
    assert depths == [];
    ExhaustedIsNone(nodes, connections, nodeId, distance);
    return None;
  }

  ghost predicate AllFrom(connections: seq<Connection>, ids: seq<string>) {
    forall id :: id in ids ==> id in Froms(connections)
  }

  lemma OneLess(connections: seq<Connection>, visited: set<string>, queue: seq<string>)
    requires AllFrom(connections, queue) && queue != [] && queue[0] !in visited
    ensures |Froms(connections) - (visited + {queue[0]})| < |Froms(connections) - visited|
  {
    var all := Froms(connections);
    assert all - visited == (all - (visited + {queue[0]})) + {queue[0]};
  }

  lemma KeysGrow(distance: map<string, nat>, id: string, n: nat)
    ensures distance[id := n].Keys == distance.Keys + {id}
  {
  }

  lemma SourcesAreFroms(connections: seq<Connection>, to: string)
    ensures AllFrom(connections, Sources(connections, to))
  {
    forall id | id in Sources(connections, to)
      ensures id in Froms(connections)
    {
      assert Linked(connections, id, to);
      assert Connection(id, to) in connections && Connection(id, to).from == id;
    }
  }
}
