/**
 * The graph container of src/core_models/dannn.rs: a `Network` owns an
 * ordered sequence of layers, each layer an ordered sequence of nodes, plus
 * its external inputs and its own node selection table.
 */
module NetworkModel {
  import opened Wrappers
  import NodeSelection

  /** The source's `Error` enum. */
  datatype Error =
    | Initialize
    | PrevalenceConfigure
    | InvalidLayer
    | InvalidNode
    | NodeAddition
    | LayerRetrieval
    | NodeRetrieval

  /**
   * One node input (`ConnectionType`). The source holds borrowed references
   * to a node connection, a constant or an input; here each variant keeps
   * only the value it supplies (and the input slot for `Input`).
   */
  datatype Connection =
    | NodeConnection(value: real)
    | Constant(value: real)
    | Input(value: real, inputId: nat)

  /**
   * A node: its type id, its ordered inputs and its last computed state.
   * `Node::new(t)` is `Node(t, [], 0.0)`: no connections, state 0.
   */
  datatype Node = Node(nodeTypeId: nat, connections: seq<Connection>, state: real)

  /** A layer: its ordered nodes. `Layer::new` is `Layer([])`. */
  datatype Layer = Layer(nodes: seq<Node>)

  /** The outcome of `get_node` as written: a node, an error, or the panic of an `unwrap`. */
  datatype Lookup = Found(node: Node) | Failed(error: Error) | Panic

  /**
   * `get_node` exactly as written: it checks the node index against the
   * number of LAYERS, so an index the check lets through can still be past
   * the end of the layer, and then the final `unwrap` panics.
   */
  function NodeLookupAsWritten(layers: seq<Layer>, layerIndex: nat, nodeIndex: nat): (r: Lookup)
    ensures r == Failed(InvalidLayer) <==> layerIndex >= |layers|
    ensures r == Failed(InvalidNode) <==> layerIndex < |layers| && nodeIndex >= |layers|
    ensures r.Panic? <==>
      layerIndex < |layers| && nodeIndex < |layers| && nodeIndex >= |layers[layerIndex].nodes|
    ensures r.Found? <==>
      layerIndex < |layers| && nodeIndex < |layers| && nodeIndex < |layers[layerIndex].nodes|
    ensures r.Found? ==> r.node == layers[layerIndex].nodes[nodeIndex]
  {
    if !(layerIndex < |layers|) then Failed(InvalidLayer)
    else if !(nodeIndex < |layers|) then Failed(InvalidNode)
    else if nodeIndex < |layers[layerIndex].nodes| then Found(layers[layerIndex].nodes[nodeIndex])
    else Panic
  }

  /**
   * The bounds-checked node accessor as intended: the node index is checked
   * against the size of the selected layer, so the lookup succeeds exactly
   * when both indices address a node.
   */
  function NodeLookup(layers: seq<Layer>, layerIndex: nat, nodeIndex: nat): (r: Result<Node, Error>)
    ensures r.Ok? <==> layerIndex < |layers| && nodeIndex < |layers[layerIndex].nodes|
    ensures r.Ok? ==> r.value == layers[layerIndex].nodes[nodeIndex]
    ensures r == Err(InvalidLayer) <==> layerIndex >= |layers|
    ensures r == Err(InvalidNode) <==> layerIndex < |layers| && nodeIndex >= |layers[layerIndex].nodes|
  {
    if !(layerIndex < |layers|) then Err(InvalidLayer)
    else if !(nodeIndex < |layers[layerIndex].nodes|) then Err(InvalidNode)
    else Ok(layers[layerIndex].nodes[nodeIndex])
  }

  /**
   * The two inputs that show the wrong bound: with two layers and one node in
   * layer 0, node 1 of layer 0 passes the check and panics; with one layer of
   * two nodes, node 1 of layer 0 exists but is refused as `InvalidNode`.
   */
  lemma NodeGuardCounterexamples(n: Node)
    ensures NodeLookupAsWritten([Layer([n]), Layer([])], 0, 1) == Panic
    ensures NodeLookup([Layer([n]), Layer([])], 0, 1) == Err(InvalidNode)
    ensures NodeLookupAsWritten([Layer([n, n])], 0, 1) == Failed(InvalidNode)
    ensures NodeLookup([Layer([n, n])], 0, 1) == Ok(n)
  {
  }

  /**
   * Where the written check does not panic it never returns a wrong node, and
   * it agrees with the intended lookup whenever the node index is below both
   * the layer count and the layer's size.
   */
  lemma AsWrittenAgreesWithIntended(layers: seq<Layer>, layerIndex: nat, nodeIndex: nat)
    ensures NodeLookupAsWritten(layers, layerIndex, nodeIndex).Found? ==>
      NodeLookup(layers, layerIndex, nodeIndex) == Ok(NodeLookupAsWritten(layers, layerIndex, nodeIndex).node)
    ensures layerIndex >= |layers| ==>
      NodeLookupAsWritten(layers, layerIndex, nodeIndex) == Failed(InvalidLayer)
      && NodeLookup(layers, layerIndex, nodeIndex) == Err(InvalidLayer)
    ensures layerIndex < |layers| && nodeIndex < |layers| && nodeIndex < |layers[layerIndex].nodes| ==>
      NodeLookupAsWritten(layers, layerIndex, nodeIndex) == Found(layers[layerIndex].nodes[nodeIndex])
      && NodeLookup(layers, layerIndex, nodeIndex) == Ok(layers[layerIndex].nodes[nodeIndex])
  {
  }

  /** The network (`Network`). */
  class Network {
    var layers: seq<Layer>
    var inputs: seq<real>
    var nodeSelectionTable: NodeSelection.NodeSelectionTable

    /** `Network::new`: no layers, no inputs, an empty selection table. */
    constructor ()
      ensures layers == [] && inputs == []
      ensures fresh(nodeSelectionTable)
      ensures nodeSelectionTable.Valid() && nodeSelectionTable.descriptors == map[]
    {
      layers := [];
      inputs := [];
      nodeSelectionTable := new NodeSelection.NodeSelectionTable();
    }

    /**
     * `generate_node_to_layer`: fails with `InvalidLayer` when the layer does
     * not exist; otherwise appends a new node to that layer only.
     */
    method GenerateNodeToLayer(nodeType: nat, layerIndex: nat) returns (r: Result<Node, Error>)
      modifies this
      ensures inputs == old(inputs) && nodeSelectionTable == old(nodeSelectionTable)
      ensures r.Err? <==> layerIndex >= |old(layers)|
      ensures r.Err? ==> r.error == InvalidLayer && layers == old(layers)
      ensures r.Ok? ==>
        && r.value.nodeTypeId == nodeType && r.value.connections == [] && r.value.state == 0.0
        && |layers| == |old(layers)|
        && layers[layerIndex].nodes == old(layers)[layerIndex].nodes + [r.value]
        && forall k :: 0 <= k < |layers| && k != layerIndex ==> layers[k] == old(layers)[k]
    {
      if !(layerIndex < |layers|) {
        return Err(InvalidLayer);
      }
      // The source's `NodeAddition` branch follows a `get_mut` that cannot
      // fail after the bounds check above.
      var layer := layers[layerIndex];
      var newNode := Node(nodeType, [], 0.0);
      layers := layers[layerIndex := Layer(layer.nodes + [newNode])];
      return Ok(newNode);
    }

    /** `generate_layer_to_network`: appends exactly one empty layer; never fails. */
    method GenerateLayerToNetwork() returns (r: Result<Layer, Error>)
      modifies this
      ensures inputs == old(inputs) && nodeSelectionTable == old(nodeSelectionTable)
      ensures layers == old(layers) + [Layer([])]
      ensures r == Ok(Layer([]))
    {
      var newLayer := Layer([]);
      layers := layers + [newLayer];
      return Ok(newLayer);
    }

    /** `get_layer`: the layer at `layerIndex`, or `InvalidLayer` when out of range. */
    method GetLayer(layerIndex: nat) returns (r: Result<Layer, Error>)
      ensures r.Ok? <==> layerIndex < |layers|
      ensures r.Ok? ==> r.value == layers[layerIndex]
      ensures r.Err? ==> r.error == InvalidLayer
    {
      if !(layerIndex < |layers|) {
        return Err(InvalidLayer);
      }
      return Ok(layers[layerIndex]);
    }

    /**
     * `get_node` as written. The node index is checked against the layer
     * count; an index that passes that check but is past the end of the layer
     * makes the source's `unwrap` panic, which the precondition excludes.
     */
    method GetNode(layerIndex: nat, nodeIndex: nat) returns (r: Result<Node, Error>)
      requires layerIndex < |layers| && nodeIndex < |layers| ==> nodeIndex < |layers[layerIndex].nodes|
      ensures r == Err(InvalidLayer) <==> layerIndex >= |layers|
      ensures r == Err(InvalidNode) <==> layerIndex < |layers| && nodeIndex >= |layers|
      ensures r.Ok? ==> r.value == layers[layerIndex].nodes[nodeIndex]
      ensures NodeLookupAsWritten(layers, layerIndex, nodeIndex) ==
        (if r.Ok? then Found(r.value) else Failed(r.error))
    {
      if !(layerIndex < |layers|) {
        return Err(InvalidLayer);
      }
      if !(nodeIndex < |layers|) {
        return Err(InvalidNode);
      }
      var layer := GetLayer(layerIndex);
      return Ok(layer.value.nodes[nodeIndex]);
    }
  }

  /**
   * The source's `generate_layer_to_network` test: a new network with one
   * layer holding one node of type 201, and an empty selection table.
   */
  method SourceNetworkExample() returns (layers: seq<Layer>, inputs: seq<real>, descriptors: map<nat, NodeSelection.Descriptor>)
    ensures layers == [Layer([Node(201, [], 0.0)])]
    ensures inputs == [] && descriptors == map[]
  {
    var network := new Network();
    var _ := network.GenerateLayerToNetwork();
    var added := network.GenerateNodeToLayer(201, 0);
    assert network.layers[0].nodes == [Node(201, [], 0.0)];
    layers, inputs, descriptors := network.layers, network.inputs, network.nodeSelectionTable.descriptors;
  }
}
