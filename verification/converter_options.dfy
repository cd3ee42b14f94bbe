/** Node descriptions and converter options
    (`NodeInfo` and `ConverterOption`,
    mace/python/tools/converter_tool/base_converter.py, lines 129-212). */
module ConverterOptions {
  import opened Wrappers

  /** `mace_pb2.DataType`: only `DT_FLOAT`, the default, is named here. */
  datatype DataType = DT_FLOAT | OtherDataType(code: int)

  /** `mace_pb2.DeviceType`: only `CPU`, the default, is named here. */
  datatype DeviceType = CPU | OtherDevice(code: int)

  /** A node's name (unset until assigned) and shape. */
  class NodeInfo {
    var name: Option<string>
    var shape: seq<int>

    constructor ()
      ensures name == None && shape == []
    {
      name := None;
      shape := [];
    }

    method SetName(name: string)
      modifies this
      ensures this.name == Some(name) && shape == old(shape)
    {
      this.name := Some(name);
    }

    method SetShape(shape: seq<int>)
      modifies this
      ensures this.shape == shape && name == old(name)
    {
      this.shape := shape;
    }
  }

  /** A dictionary from node name to node, as `ConverterOption` keeps its
      input and output nodes. The dictionary holds the node objects
      themselves, so later changes to a node show through it. */
  type NodeMap = map<Option<string>, NodeInfo>

  /** The dictionary after `nodes[node.name] = node` for each node of
      `nodes` in order. */
  function InsertAll(m: NodeMap, nodes: seq<NodeInfo>): (r: NodeMap)
    reads set n | n in nodes
  {
    if nodes == [] then m
    else
      var last := nodes[|nodes| - 1];
      assert forall n :: n in nodes[..|nodes| - 1] ==> n in nodes;
      InsertAll(m, nodes[..|nodes| - 1])[last.name := last]
  }

  /** The keys afterwards are the old keys plus the names of the listed
      nodes. */
  lemma {:induction false} InsertAllKeys(m: NodeMap, nodes: seq<NodeInfo>)
    ensures InsertAll(m, nodes).Keys == m.Keys + set n | n in nodes :: n.name
  {
    if nodes != [] {
      var p, last := nodes[..|nodes| - 1], nodes[|nodes| - 1];
      InsertAllKeys(m, p);
      assert nodes == p + [last];
      assert (set n | n in nodes :: n.name) == (set n | n in p :: n.name) + {last.name};
    }
  }

  /** Inserting one more node extends the dictionary by that node. */
  lemma InsertAllSnoc(m: NodeMap, nodes: seq<NodeInfo>, k: nat)
    requires k < |nodes|
    ensures InsertAll(m, nodes[..k + 1]) == InsertAll(m, nodes[..k])[nodes[k].name := nodes[k]]
  {
    assert nodes[..k + 1][..k] == nodes[..k];
  }

  /** Last write wins: a key is bound to the last node in the list that
      carries that name. */
  lemma {:induction false} InsertAllLastWins(m: NodeMap, nodes: seq<NodeInfo>, i: nat)
    requires i < |nodes|
    requires forall j :: i < j < |nodes| ==> nodes[j].name != nodes[i].name
    ensures nodes[i].name in InsertAll(m, nodes)
    ensures InsertAll(m, nodes)[nodes[i].name] == nodes[i]
  {
    if i < |nodes| - 1 {
      InsertAllLastWins(m, nodes[..|nodes| - 1], i);
    }
  }

  /** A key that no node in the list carries keeps its old binding. */
  lemma {:induction false} InsertAllOtherKeys(m: NodeMap, nodes: seq<NodeInfo>, k: Option<string>)
    requires forall j :: 0 <= j < |nodes| ==> nodes[j].name != k
    ensures k in InsertAll(m, nodes) <==> k in m
    ensures k in m ==> InsertAll(m, nodes)[k] == m[k]
  {
    if nodes != [] {
      InsertAllOtherKeys(m, nodes[..|nodes| - 1], k);
    }
  }

  /** The options handed to a converter. */
  class ConverterOption {
    var inputNodes: NodeMap
    var outputNodes: NodeMap
    var dataType: DataType
    var device: DeviceType
    var winogradEnabled: bool

    constructor ()
      ensures inputNodes == map[] && outputNodes == map[]
      ensures dataType == DT_FLOAT && device == CPU && !winogradEnabled
    {
      inputNodes := map[];
      outputNodes := map[];
      dataType := DT_FLOAT;
      device := CPU;
      winogradEnabled := false;
    }

    /** `add_input_node`: binds the node's name to the node. */
    method AddInputNode(node: NodeInfo)
      modifies this
      ensures inputNodes == old(inputNodes)[node.name := node]
      ensures outputNodes == old(outputNodes)
      ensures dataType == old(dataType) && device == old(device)
      ensures winogradEnabled == old(winogradEnabled)
    {
      inputNodes := inputNodes[node.name := node];
    }

    /** `add_output_node`: binds the node's name to the node. */
    method AddOutputNode(node: NodeInfo)
      modifies this
      ensures outputNodes == old(outputNodes)[node.name := node]
      ensures inputNodes == old(inputNodes)
      ensures dataType == old(dataType) && device == old(device)
      ensures winogradEnabled == old(winogradEnabled)
    {
      outputNodes := outputNodes[node.name := node];
    }

    /** The `input_nodes` setter: adds each node of the list in order to the
        existing dictionary, which it does not clear first. */
    method SetInputNodes(nodes: seq<NodeInfo>)
      modifies this
      ensures inputNodes == InsertAll(old(inputNodes), nodes)
      ensures outputNodes == old(outputNodes)
      ensures dataType == old(dataType) && device == old(device)
      ensures winogradEnabled == old(winogradEnabled)
    {
      for k := 0 to |nodes|
        invariant inputNodes == InsertAll(old(inputNodes), nodes[..k])
        invariant outputNodes == old(outputNodes)
        invariant dataType == old(dataType) && device == old(device)
        invariant winogradEnabled == old(winogradEnabled)
      {
        InsertAllSnoc(old(inputNodes), nodes, k);
        inputNodes := inputNodes[nodes[k].name := nodes[k]];
      }
      assert nodes[..|nodes|] == nodes;
    }

    /** The `output_nodes` setter: adds each node of the list in order to
        the existing dictionary. */
    method SetOutputNodes(nodes: seq<NodeInfo>)
      modifies this
      ensures outputNodes == InsertAll(old(outputNodes), nodes)
      ensures inputNodes == old(inputNodes)
      ensures dataType == old(dataType) && device == old(device)
      ensures winogradEnabled == old(winogradEnabled)
    {
      for k := 0 to |nodes|
        invariant outputNodes == InsertAll(old(outputNodes), nodes[..k])
        invariant inputNodes == old(inputNodes)
        invariant dataType == old(dataType) && device == old(device)
        invariant winogradEnabled == old(winogradEnabled)
      {
        InsertAllSnoc(old(outputNodes), nodes, k);
        outputNodes := outputNodes[nodes[k].name := nodes[k]];
      }
      assert nodes[..|nodes|] == nodes;
    }

    method SetDataType(dataType: DataType)
      modifies this
      ensures this.dataType == dataType
      ensures inputNodes == old(inputNodes) && outputNodes == old(outputNodes)
      ensures device == old(device) && winogradEnabled == old(winogradEnabled)
    {
      this.dataType := dataType;
    }

    method SetDevice(device: DeviceType)
      modifies this
      ensures this.device == device
      ensures inputNodes == old(inputNodes) && outputNodes == old(outputNodes)
      ensures dataType == old(dataType) && winogradEnabled == old(winogradEnabled)
    {
      this.device := device;
    }

    method SetWinogradEnabled(winogradEnabled: bool)
      modifies this
      ensures this.winogradEnabled == winogradEnabled
      ensures inputNodes == old(inputNodes) && outputNodes == old(outputNodes)
      ensures dataType == old(dataType) && device == old(device)
    {
      this.winogradEnabled := winogradEnabled;
    }
  }
}
