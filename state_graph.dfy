/**
 * The part of LangGraph's `StateGraph` builder the graphs use: nodes, plain
 * edges and conditional edges with a path map, added one call at a time.
 */
module StateGraph {
  const Start: string := "__start__"
  const End: string := "__end__"

  /** A compiled graph: its node names, plain edges and, per node, the routing label to target map. */
  datatype Wiring = Wiring(nodes: set<string>, edges: set<(string, string)>, branches: map<string, map<string, string>>)
  {
    /** Every edge and every branch target leads to a declared node or to `END`, from a declared node or `START`. */
    predicate Closed()
    {
      && (forall e :: e in edges ==> (e.0 in nodes || e.0 == Start) && (e.1 in nodes || e.1 == End))
      && (forall n :: n in branches ==> n in nodes)
      && (forall n, r :: n in branches && r in branches[n] ==> branches[n][r] in nodes || branches[n][r] == End)
    }

    /**
     * Leaving `from` with routing label `route` leads to `to`: through the
     * node's path map when it has conditional edges, else through a plain edge.
     */
    predicate Routes(from: string, route: string, to: string)
    {
      if from in branches then route in branches[from] && branches[from][route] == to
      else (from, to) in edges
    }
  }

  class Workflow {
    var nodes: set<string>
    var edges: set<(string, string)>
    var branches: map<string, map<string, string>>

    constructor()
      ensures nodes == {} && edges == {} && branches == map[]
    {
      nodes := {};
      edges := {};
      branches := map[];
    }

    method AddNode(name: string)
      modifies this
      ensures nodes == old(nodes) + {name} && edges == old(edges) && branches == old(branches)
    {
      nodes := nodes + {name};
    }

    method AddEdge(from: string, to: string)
      modifies this
      ensures edges == old(edges) + {(from, to)} && nodes == old(nodes) && branches == old(branches)
    {
      edges := edges + {(from, to)};
    }

    method AddConditionalEdges(from: string, pathMap: map<string, string>)
      modifies this
      ensures branches == old(branches)[from := pathMap] && nodes == old(nodes) && edges == old(edges)
    {
      branches := branches[from := pathMap];
    }

    function Compile(): Wiring
      reads this
    {
      Wiring(nodes, edges, branches)
    }
  }
}
