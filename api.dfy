/** The DuckType custom resource and the value types the reconciler exchanges
    with its collaborators: references handed to the dependency tracker,
    errors returned by the tracker and the service lister, the Ready
    condition and the published address. */
module DuckTypeApi {

  datatype Option<+T> = None | Some(value: T)

  /** An error as the collaborators return it. `NotFoundError` is the
      Kubernetes API "not found" status error the service lister reports for
      a missing Service; every other failure is an `OtherError`. */
  datatype Error =
    | NotFoundError(resource: string, name: string)
    | OtherError(message: string)

  /** `apierrs.IsNotFound`: true only for a non-nil error of the not-found
      kind; a nil error is not "not found". */
  predicate IsNotFound(err: Option<Error>)
  {
    err.Some? && err.value.NotFoundError?
  }

  /** The reference handed to the tracker: which object the owner's status
      depends on. */
  datatype Reference = Reference(apiVersion: string, kind: string, name: string, namespace: string)

  /** State of a condition. `Unknown` is the state before any reconcile
      determined the Service's existence. */
  datatype ConditionStatus = Unknown | True | False

  /** The resource's single availability condition. For `False` the reason
      names the Service that was not found. */
  datatype Condition = Condition(status: ConditionStatus, reason: string)

  datatype Url = Url(scheme: string, host: string)

  datatype Addressable = Addressable(url: Url)

  /** `Status` of a DuckType: the availability condition and the optional
      address the resource publishes. */
  datatype DuckTypeStatus = DuckTypeStatus(ready: Condition, address: Option<Addressable>)
  {
    /** The status a freshly created resource carries. */
    static function Initial(): DuckTypeStatus
    {
      DuckTypeStatus(Condition(Unknown, ""), None)
    }

    /** Marks the condition true; the address is left to the caller. */
    function MarkServiceAvailable(): DuckTypeStatus
    {
      this.(ready := Condition(True, ""))
    }

    /** Marks the condition false, naming the missing Service; the address
        is left as it was. */
    function MarkServiceUnavailable(serviceName: string): DuckTypeStatus
    {
      this.(ready := Condition(False, serviceName))
    }
  }

  datatype DuckTypeSpec = DuckTypeSpec(serviceName: string)

  /** A DuckType resource. Identity and spec are fixed for the object's
      lifetime; only `status` is ever written, and only by the reconciler. */
  class DuckType {
    const namespace: string
    const name: string
    const spec: DuckTypeSpec
    var status: DuckTypeStatus

    constructor (namespace: string, name: string, spec: DuckTypeSpec)
      ensures this.namespace == namespace && this.name == name && this.spec == spec
      ensures status == DuckTypeStatus.Initial()
    {
      this.namespace := namespace;
      this.name := name;
      this.spec := spec;
      status := DuckTypeStatus.Initial();
    }
  }
}
