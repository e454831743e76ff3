/** What the kubelet's components share. */
module KubeletTypes {
  type Uid = string

  /** What a worker is asked to do with its pod. */
  datatype SyncOp = Create | Sync | Recreate | Kill
}
