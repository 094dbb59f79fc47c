/**
 * Sequence analysis results of `src/seqres.rs` (NCBI seqres.asn): a graph
 * of values drawn along a region of a sequence, with real, integer or
 * byte values.
 */
module SeqRes {
  import opened Wrappers
  import opened Bytes
  import opened General
  import opened SeqLoc

  /** `Graph<T>`: the top and bottom of the graph, where its axis is drawn, and its values. */
  datatype Graph<T> = Graph(max: T, min: T, axis: T, values: seq<T>)

  /** `SeqGraphChoice`: exactly one kind of graph; byte values lie in 0 to 255 by their type. */
  datatype SeqGraphChoice =
    | Real(realGraph: Graph<F64>)
    | Int(intGraph: Graph<nat>)
    | Byte(byteGraph: Graph<byte>)

  /** `SeqGraph`: the graph of region `loc`, with `numval` the number of its values. */
  datatype SeqGraph = SeqGraph(
    title: Option<string>,
    comment: Option<string>,
    loc: SeqLoc,
    titleX: Option<string>,
    titleY: Option<string>,
    comp: Option<int>,
    a: Option<F64>,
    b: Option<F64>,
    numval: nat,
    graph: SeqGraphChoice)

  /** The number of values of whichever graph is chosen. */
  function ValueCount(g: SeqGraphChoice): (n: nat)
    ensures g.Real? ==> n == |g.realGraph.values|
    ensures g.Int? ==> n == |g.intGraph.values|
    ensures g.Byte? ==> n == |g.byteGraph.values|
  {
    match g
    case Real(r) => |r.values|
    case Int(i) => |i.values|
    case Byte(b) => |b.values|
  }

  /** `numval` counts the values of the chosen graph. */
  predicate ValidSeqGraph(g: SeqGraph)
  {
    g.numval == ValueCount(g.graph)
  }

  /** A graph of region `loc` with only its mandatory fields, `numval` counted from the values. */
  function MakeSeqGraph(loc: SeqLoc, graph: SeqGraphChoice): (g: SeqGraph)
    ensures ValidSeqGraph(g) && g.loc == loc && g.graph == graph
    ensures g.title.None? && g.comment.None? && g.titleX.None? && g.titleY.None? && g.comp.None?
  {
    SeqGraph(None, None, loc, None, None, None, None, None, ValueCount(graph), graph)
  }

  /** Another byte value, with `numval` kept in step, keeps the graph consistent; without it, it does not. */
  lemma AddByteValue(g: SeqGraph, v: byte)
    requires ValidSeqGraph(g) && g.graph.Byte?
    ensures var bg := g.graph.byteGraph;
      var h := g.(graph := Byte(bg.(values := bg.values + [v])));
      ValidSeqGraph(h.(numval := g.numval + 1)) && !ValidSeqGraph(h)
  {
  }
}
