// What a ROS graph query reports about one endpoint.
module GraphEndpoints {
  import opened Common

  datatype EndpointKind = InvalidKind | Publisher | Subscription

  // How the endpoint's QoS compares with the local and the expected profile;
  // the comparison itself is made outside this model.
  datatype QosReport = QosReport(ddsCompatible: bool, policiesMatch: bool, complete: bool)

  datatype EndpointInfo = EndpointInfo(
    kind: EndpointKind,
    topicType: string,
    nodeNamespace: string,
    nodeName: string,
    gid: seq<uint8>,
    qos: QosReport)

  function NodeFqn(e: EndpointInfo): string {
    if e.nodeNamespace == "" || e.nodeNamespace == "/" then "/" + e.nodeName
    else if e.nodeNamespace[|e.nodeNamespace| - 1] == '/' then e.nodeNamespace + e.nodeName
    else e.nodeNamespace + "/" + e.nodeName
  }
}
