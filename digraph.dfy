/** The part of a networkx `DiGraph` the core uses: nodes with an optional
    `language` attribute, and a set of directed edges. */
module DiGraphs {
  import opened Wrappers
  import opened PyJson

  /** A graph's contents: each node with its attribute (None when the node
      was created by an edge and never given one), and the edges. */
  datatype Graph = Graph(nodes: map<string, Option<Json>>, edges: set<(string, string)>)
  {
    /** Every edge's endpoints are nodes. */
    predicate Closed() {
      forall e :: e in edges ==> e.0 in nodes && e.1 in nodes
    }

    /** `add_node(n, language=a)`: creates `n`, or updates its attribute. */
    function WithNode(n: string, a: Json): (g: Graph)
      ensures g.nodes.Keys == nodes.Keys + {n} && g.nodes[n] == Some(a)
      ensures forall m :: m in nodes && m != n ==> g.nodes[m] == nodes[m]
      ensures g.edges == edges
      ensures Closed() ==> g.Closed()
    {
      Graph(nodes[n := Some(a)], edges)
    }

    /** `add_edge(u, v)`: a pair already present is not added twice; missing
        endpoints are created without attributes. */
    function WithEdge(u: string, v: string): (g: Graph)
      ensures g.edges == edges + {(u, v)}
      ensures g.nodes.Keys == nodes.Keys + {u, v}
      ensures forall n :: n in g.nodes ==> g.nodes[n] == if n in nodes then nodes[n] else None
      ensures Closed() ==> g.Closed()
    {
      var withU := if u in nodes then nodes else nodes[u := None];
      var withV := if v in withU then withU else withU[v := None];
      Graph(withV, edges + {(u, v)})
    }
  }

  const Empty: Graph := Graph(map[], {})

  /** The mutable graph object. */
  class DiGraph {
    var nodes: map<string, Option<Json>>
    var edges: set<(string, string)>

    function Value(): Graph
      reads this
    {
      Graph(nodes, edges)
    }

    /** `nx.DiGraph()`. */
    constructor()
      ensures Value() == Empty
    {
      nodes := map[];
      edges := {};
    }

    method AddNode(n: string, a: Json)
      modifies this
      ensures Value() == old(Value()).WithNode(n, a)
    {
      nodes := nodes[n := Some(a)];
    }

    method AddEdge(u: string, v: string)
      modifies this
      ensures Value() == old(Value()).WithEdge(u, v)
    {
      if u !in nodes {
        nodes := nodes[u := None];
      }
      if v !in nodes {
        nodes := nodes[v := None];
      }
      edges := edges + {(u, v)};
    }
  }
}
