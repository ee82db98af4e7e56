/**
 * The edge and arc lists the driver derives from the network cost table: every Electricity row
 * (carrier, from, to) yields the edge (from, to) and the two arcs (from, to), (to, from).
 */
module RunnerTopology {
  import opened Common

  /** A key of the base network cost table: (carrier, from, to). */
  type NetworkKey = (Label, Location, Location)

  /** The edges contributed by the keys, in key order. */
  function ElectricityEdges(keys: seq<NetworkKey>): seq<Pair>
    decreases |keys|
  {
    if |keys| == 0 then []
    else
      var last := keys[|keys| - 1];
      ElectricityEdges(keys[..|keys| - 1]) + (if last.0 == Electricity then [(last.1, last.2)] else [])
  }

  /** Each edge in both directions, forward first. */
  function ArcsOf(edges: seq<Pair>): seq<Pair>
    decreases |edges|
  {
    if |edges| == 0 then []
    else
      var last := edges[|edges| - 1];
      ArcsOf(edges[..|edges| - 1]) + [(last.0, last.1), (last.1, last.0)]
  }

  /** Builds the edge and arc lists in one pass over the keys. */
  method BuildEdgesAndArcs(keys: seq<NetworkKey>) returns (edges: seq<Pair>, arcs: seq<Pair>)
    ensures edges == ElectricityEdges(keys)
    ensures arcs == ArcsOf(edges)
  {
    edges, arcs := [], [];
    for i := 0 to |keys|
      invariant edges == ElectricityEdges(keys[..i])
      invariant arcs == ArcsOf(edges)
    {
      var x := keys[i];
      assert keys[..i + 1][..i] == keys[..i];
      if x.0 == Electricity {
        var edge := (x.1, x.2);
        var arc1 := (x.1, x.2);
        var arc2 := (x.2, x.1);
        edges := edges + [edge];
        arcs := arcs + [arc1];
        arcs := arcs + [arc2];
      }
    }
    assert keys[..|keys|] == keys;
  }

  /** A pair is an edge exactly when the table has an Electricity row for it. */
  lemma {:induction false} ElectricityEdgesMembership(keys: seq<NetworkKey>, a: Location, b: Location)
    ensures (a, b) in ElectricityEdges(keys) <==> (Electricity, a, b) in keys
    decreases |keys|
  {
    if |keys| > 0 {
      var init := keys[..|keys| - 1];
      ElectricityEdgesMembership(init, a, b);
      assert keys == init + [keys[|keys| - 1]];
    }
  }

  /** There are two arcs per edge: arc 2i is edge i and arc 2i+1 is edge i reversed. */
  lemma {:induction false} ArcsLayout(edges: seq<Pair>)
    ensures |ArcsOf(edges)| == 2 * |edges|
    ensures forall i | 0 <= i < |edges| ::
      ArcsOf(edges)[2 * i] == edges[i] && ArcsOf(edges)[2 * i + 1] == (edges[i].1, edges[i].0)
    decreases |edges|
  {
    if |edges| > 0 {
      var init := edges[..|edges| - 1];
      ArcsLayout(init);
      forall i | 0 <= i < |edges|
        ensures ArcsOf(edges)[2 * i] == edges[i] && ArcsOf(edges)[2 * i + 1] == (edges[i].1, edges[i].0)
      {
        if i < |init| {
          assert ArcsOf(edges)[2 * i] == ArcsOf(init)[2 * i];
          assert ArcsOf(edges)[2 * i + 1] == ArcsOf(init)[2 * i + 1];
        }
      }
    }
  }

  /** A pair is an arc exactly when it or its reverse is an edge. */
  lemma {:induction false} ArcsMembership(edges: seq<Pair>, a: Location, b: Location)
    ensures (a, b) in ArcsOf(edges) <==> (a, b) in edges || (b, a) in edges
    decreases |edges|
  {
    if |edges| > 0 {
      var init := edges[..|edges| - 1];
      ArcsMembership(init, a, b);
      assert edges == init + [edges[|edges| - 1]];
    }
  }

  /** The arcs of the table: both directions of every Electricity row, and nothing else. */
  lemma TableArcs(keys: seq<NetworkKey>, a: Location, b: Location)
    ensures (a, b) in ArcsOf(ElectricityEdges(keys)) <==> (Electricity, a, b) in keys || (Electricity, b, a) in keys
  {
    ArcsMembership(ElectricityEdges(keys), a, b);
    ElectricityEdgesMembership(keys, a, b);
    ElectricityEdgesMembership(keys, b, a);
  }
}
