/** What the modules share about a NodeSet. */
module NodeSets {
  datatype ScalingMode = StatefulSet | DaemonSet

  /** How many pods one pass creates or condemns at most. */
  const BURST_REPLICAS: nat := 250
}
