/** The DuckType reconciler: one pass registers a dependency on the Service
    the resource names, looks that Service up in the lister's cache, and
    writes the resource's status from the outcome. */
module DuckTypeReconciler {
  import opened DuckTypeApi

  const EventTypeNormal := "Normal"
  const ReasonReconciled := "DuckTypeReconciled"
  const MessageReconciled := "DuckType reconciled: \"%s/%s\""

  /** A reconciler event: its type, its reason and its message, kept as the
      format string with its arguments. */
  datatype Event = Event(eventType: string, reason: string, messageFormat: string, args: seq<string>)

  /** What a pass returns to the work queue: nothing (done, no event), an
      event announcing success, or an error asking for a retry. */
  datatype ReconcileResult = NoEvent | Reconciled(event: Event) | Failure(err: Error)

  /** A call the reconciler makes on a collaborator, in the order made. */
  datatype Call =
    | TrackReference(ref: Reference, owner: DuckType)
    | ServicesGet(namespace: string, name: string)

  /** Everything one pass does: the calls it makes, the status it leaves on
      the resource and what it returns. */
  datatype Pass = Pass(calls: seq<Call>, status: DuckTypeStatus, result: ReconcileResult)

  /** The success event, of type Normal and reason DuckTypeReconciled, whose
      message names the reconciled resource as namespace/name. */
  function NewReconciledNormal(namespace: string, name: string): (e: Event)
    ensures e.eventType == EventTypeNormal && e.reason == ReasonReconciled
    ensures e.messageFormat == MessageReconciled && e.args == [namespace, name]
  {
    Event(EventTypeNormal, ReasonReconciled, MessageReconciled, [namespace, name])
  }

  /** The Service the resource depends on: core "v1" Service named by the
      spec, in the resource's own namespace. */
  function ServiceReference(o: DuckType): Reference
  {
    Reference("v1", "Service", o.spec.serviceName, o.namespace)
  }

  /** The address published once the Service exists. */
  function ServiceAddress(o: DuckType, hostname: (string, string) -> string): Addressable
  {
    Addressable(Url("http", hostname(o.spec.serviceName, o.namespace)))
  }

  /** One reconcile pass over `o` whose current status is `status`, when the
      tracker answers `trackErr` and the lister's Get answers `getErr`
      (None when the Service was found). `hostname` is the cluster's
      service host naming scheme. */
  function Reconcile(o: DuckType, status: DuckTypeStatus, trackErr: Option<Error>,
                     getErr: Option<Error>, hostname: (string, string) -> string): (p: Pass)
    // The tracker is always called first, with the Service reference and the resource as owner.
    ensures |p.calls| >= 1
    ensures p.calls[0] == TrackReference(Reference("v1", "Service", o.spec.serviceName, o.namespace), o)
    // A tracking failure is returned as is; there is no lookup and no status write.
    ensures trackErr.Some? ==>
              p.calls == [p.calls[0]] && p.status == status && p.result == Failure(trackErr.value)
    // Otherwise the Service is looked up by the spec's name in the resource's namespace.
    ensures trackErr.None? ==> p.calls == [p.calls[0], ServicesGet(o.namespace, o.spec.serviceName)]
    // Not found: the condition turns false naming the Service, the address stays, nothing is returned.
    ensures trackErr.None? && IsNotFound(getErr) ==>
              && p.status.ready == Condition(False, o.spec.serviceName)
              && p.status.address == status.address
              && p.result == NoEvent
    // Any other lookup failure is returned as is and the status is left alone.
    ensures trackErr.None? && getErr.Some? && !IsNotFound(getErr) ==>
              p.status == status && p.result == Failure(getErr.value)
    // Found: the condition turns true, the http address is published, the success event is returned.
    ensures trackErr.None? && getErr.None? ==>
              && p.status.ready.status == True
              && p.status.address == Some(Addressable(Url("http", hostname(o.spec.serviceName, o.namespace))))
              && p.result.Reconciled?
              && p.result.event.eventType == EventTypeNormal
              && p.result.event.reason == ReasonReconciled
              && p.result.event.args == [o.namespace, o.name]
  {
    var track := TrackReference(ServiceReference(o), o);
    if trackErr.Some? then
      Pass([track], status, Failure(trackErr.value))
    else
      var calls := [track, ServicesGet(o.namespace, o.spec.serviceName)];
      if IsNotFound(getErr) then
        Pass(calls, status.MarkServiceUnavailable(o.spec.serviceName), NoEvent)
      else if getErr.Some? then
        Pass(calls, status, Failure(getErr.value))
      else
        Pass(calls, status.MarkServiceAvailable().(address := Some(ServiceAddress(o, hostname))),
             Reconciled(NewReconciledNormal(o.namespace, o.name)))
  }

  /** The reconciler with its collaborators. The tracker and the lister are
      represented by what they answer: `tracker` gives the error of
      TrackReference (None on success), `serviceLister` the error of
      Services(namespace).Get(name) (None when the Service exists). The
      environment may replace both between passes as the cluster changes.
      `calls` records every call made on them. */
  class Reconciler {
    var tracker: (Reference, DuckType) -> Option<Error>
    var serviceLister: (string, string) -> Option<Error>
    const serviceHostname: (string, string) -> string
    ghost var calls: seq<Call>

    constructor (tracker: (Reference, DuckType) -> Option<Error>,
                 serviceLister: (string, string) -> Option<Error>,
                 serviceHostname: (string, string) -> string)
      ensures this.tracker == tracker && this.serviceLister == serviceLister
      ensures this.serviceHostname == serviceHostname
      ensures calls == []
    {
      this.tracker := tracker;
      this.serviceLister := serviceLister;
      this.serviceHostname := serviceHostname;
      calls := [];
    }

    /** Tracker.TrackReference: asks the tracker and logs the call. */
    method Track(ref: Reference, owner: DuckType) returns (err: Option<Error>)
      modifies this`calls
      ensures err == tracker(ref, owner)
      ensures calls == old(calls) + [TrackReference(ref, owner)]
    {
      err := tracker(ref, owner);
      calls := calls + [TrackReference(ref, owner)];
    }

    /** ServiceLister.Services(namespace).Get(name): asks the lister and
        logs the call. */
    method GetService(namespace: string, name: string) returns (err: Option<Error>)
      modifies this`calls
      ensures err == serviceLister(namespace, name)
      ensures calls == old(calls) + [ServicesGet(namespace, name)]
    {
      err := serviceLister(namespace, name);
      calls := calls + [ServicesGet(namespace, name)];
    }

    /** Reconciles `o` in place: only its status may change, as `Reconcile`
        describes for the answers the collaborators give. */
    method ReconcileKind(o: DuckType) returns (r: ReconcileResult)
      modifies this`calls, o`status
      ensures var p := Reconcile(o, old(o.status), tracker(ServiceReference(o), o),
                                 serviceLister(o.namespace, o.spec.serviceName), serviceHostname);
              && calls == old(calls) + p.calls
              && o.status == p.status
              && r == p.result
    {
      var trackErr := Track(ServiceReference(o), o);
      if trackErr.Some? {
        return Failure(trackErr.value);
      }

      var getErr := GetService(o.namespace, o.spec.serviceName);
      if IsNotFound(getErr) {
        o.status := o.status.MarkServiceUnavailable(o.spec.serviceName);
        return NoEvent;
      } else if getErr.Some? {
        return Failure(getErr.value);
      }

      o.status := o.status.MarkServiceAvailable();
      o.status := o.status.(address := Some(ServiceAddress(o, serviceHostname)));
      return Reconciled(NewReconciledNormal(o.namespace, o.name));
    }
  }
}
