/** What the API server promises about one stored object: optimistic concurrency on
    resourceVersion, a generation that counts spec changes, a status subresource. */
module Kubernetes {
  datatype Option<+T> = None | Some(value: T)

  datatype Object<Spec, Status> = Object(
    spec: Spec,
    status: Status,
    generation: nat,
    resourceVersion: nat,
    finalizers: set<string>,
    deleting: bool)

  // A create request stores no status: the status subresource is enabled on every kind.
  function Created<S, T>(spec: S, emptyStatus: T, finalizers: set<string>, version: nat): Object<S, T> {
    Object(spec, emptyStatus, 1, version, finalizers, false)
  }

  /** The object after an accepted Update carrying `spec` and `finalizers`: status is ignored, the
      generation moves exactly when the spec does, and an update that changes nothing is not written. */
  function Updated<S(==), T>(stored: Object<S, T>, spec: S, finalizers: set<string>, version: nat): Object<S, T> {
    if spec == stored.spec && finalizers == stored.finalizers then stored
    else stored.(spec := spec, finalizers := finalizers, resourceVersion := version,
                 generation := if spec == stored.spec then stored.generation else stored.generation + 1)
  }

  // The object after an accepted Status().Update: nothing but the status is taken.
  function StatusUpdated<S, T>(stored: Object<S, T>, status: T, version: nat): Object<S, T> {
    stored.(status := status, resourceVersion := version)
  }

  // A metadata-only write by somebody else (a label, an annotation): only the version moves.
  function Touched<S, T>(stored: Object<S, T>, version: nat): Object<S, T> {
    stored.(resourceVersion := version)
  }
}
