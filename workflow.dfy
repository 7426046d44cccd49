/**
 * The outcome every reconcile step reports, and the reason codes the
 * inventory and instance controllers use.
 */
module Workflow {

  /** `workflow.Result`: success, not-yet-done, or a failure retries will not fix. */
  datatype Result = Ok | InProgress(reason: string, message: string) | Terminate(reason: string, message: string) {

    predicate IsOk() {
      Ok?
    }

    function Reason(): string {
      if Ok? then "" else reason
    }

    function Message(): string {
      if Ok? then "" else message
    }
  }

  // MongoDBAtlasInventory reasons
  const InventorySyncOK := "SyncOK"
  const InventoryInputError := "InputError"
  const InventoryBackendError := "BackendError"
  const InventoryEndpointUnreachable := "EndpointUnreachable"
  const InventoryAuthenticationError := "AuthenticationError"

  // MongoDBAtlasInstance reasons
  const InstanceReady := "Ready"
  const InstanceInventoryNotFound := "InventoryNotFound"
  const InstanceClusterNotFound := "AtlasClusterNotFound"
}
