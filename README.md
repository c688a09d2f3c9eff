# DuckType reconciler, modelled in Dafny

This project models the reconciliation step of the DuckType controller. A
DuckType resource names a Kubernetes Service (`spec.serviceName`). One
reconcile pass does four things in order:

1. It registers with the dependency tracker that the resource depends on that
   Service (a core `v1` `Service` in the resource's own namespace).
2. It looks the Service up in the service lister's cache.
3. It writes the resource's status from the lookup's outcome:
   - Found: the condition becomes true and an `http` address is published.
   - Not found: the condition becomes false and names the Service.
   - Any other failure: the status is left alone.
4. It returns one of three results:
   - a Normal `DuckTypeReconciled` event, on success;
   - nothing, when the Service was not found;
   - the collaborator's error, unchanged, after a failure.

Files:

- `api.dfy` (module `DuckTypeApi`) holds the resource and its value types.
  `DuckType` is a class: its namespace, name and spec are `const`, and its
  `status` is the one mutable field.
- `reconciler.dfy` (module `DuckTypeReconciler`) holds the success event
  (`NewReconciledNormal`) and a pure specification of one pass (`Reconcile`).
  It also holds the `Reconciler` class, whose `ReconcileKind` method updates
  the resource's status in place and is proved equal to `Reconcile`.
- `properties.dfy` (module `DuckTypeProperties`) states what one pass
  preserves. It also states what a run of passes converges to as the cluster
  changes. `Run` folds `Reconcile` over a sequence of collaborator answers.

The tracker and the service lister are modelled only by what they answer.
`Reconciler.tracker` gives the error of `TrackReference` (None on success).
`Reconciler.serviceLister` gives the error of `Services(ns).Get(name)` (None
when the Service exists). The ghost field `Reconciler.calls` logs every call
made on them, in order. The service host naming scheme
(`network.GetServiceHostname`) is an uninterpreted function,
`Reconciler.serviceHostname`.

A resource whose condition is False may still carry an address: the
not-found path at pkg/reconciler/ducktype/ducktype.go:71-74 never assigns
`Status.Address`, and the body of `MarkServiceUnavailable` is not part of
this model, so the model keeps the previous address on that path. Only "a
True condition implies the Service's http address" is therefore an invariant
(`AddressConsistent`); `NotFoundKeepsPreviousAddress` shows a state where the
converse fails.

## Model

| member | source | states |
|---|---|---|
| `DuckTypeReconciler.NewReconciledNormal` | pkg/reconciler/ducktype/ducktype.go:36-40 | The success event has type Normal and reason DuckTypeReconciled. Its message arguments are the resource's namespace and name, in that order. |
| `DuckTypeReconciler.Reconcile` | pkg/reconciler/ducktype/ducktype.go:57-89 | The tracker is always called first, with reference {v1, Service, spec.serviceName, namespace} and the resource as owner. A tracking error is returned unchanged, with no lookup and the status untouched. Otherwise the lookup uses the resource's namespace and spec.serviceName. Not found: the condition becomes False naming the Service, the address is kept, and nothing is returned. Another lookup error is returned unchanged and the status is untouched. Found: the condition becomes True, the address is `http` with host hostname(serviceName, namespace), and the Normal DuckTypeReconciled event for namespace/name is returned. |
| `DuckTypeReconciler.Reconciler.ReconcileKind` | pkg/reconciler/ducktype/ducktype.go:57-89 | Only the resource's status and the call log change; identity and spec are `const`. The new status, the result and the calls appended to the log are exactly those of `Reconcile`, given the answers the tracker and lister give for this resource's reference and name. |
| `DuckTypeReconciler.Reconciler.Track` | pkg/reconciler/ducktype/ducktype.go:60-65 | The tracker is asked about the given reference and owner, its answer is returned, and exactly that call is appended to the log. |
| `DuckTypeReconciler.Reconciler.GetService` | pkg/reconciler/ducktype/ducktype.go:70 | The lister is asked for the Service by namespace and name, its answer is returned, and exactly that call is appended to the log. |
| `DuckTypeReconciler.Reconciler.constructor` | pkg/reconciler/ducktype/ducktype.go:42-51 | A reconciler holds the tracker and the service lister it is given, and starts with an empty call log. |
| `DuckTypeProperties.ReconcileIdempotent` | pkg/reconciler/ducktype/ducktype.go:70-86 | A second pass with the same tracker and lister answers makes the same calls, writes the same status and returns the same result as the first. |
| `DuckTypeProperties.ReconcilePreservesAddressConsistent` | pkg/reconciler/ducktype/ducktype.go:80-86 | If a true condition implied the Service's http address before a pass, it still does after it. |
| `DuckTypeProperties.NotFoundKeepsPreviousAddress` | pkg/reconciler/ducktype/ducktype.go:71-74 | From any status whose condition is True and which carries an address, a Not-found pass sets the condition to False and leaves that address in place. |
| `DuckTypeProperties.RunReflectsLastVerdict` | pkg/reconciler/ducktype/ducktype.go:60-86 | After any sequence of passes, the status reflects the last pass that learned whether the Service exists. If no pass did, the status is exactly the initial one, because tracking and lookup failures never write it. If the last such pass found the Service, the condition is True and the http address is published. If it did not, the condition is False naming the Service. |
| `DuckTypeProperties.RunAddressProvenance` | pkg/reconciler/ducktype/ducktype.go:70-86 | After any sequence of passes, the address is either the one the resource started with or the http address of its Service. |
| `DuckTypeProperties.RunPreservesAddressConsistent` | pkg/reconciler/ducktype/ducktype.go:80-86 | Every sequence of passes keeps the rule that a True condition implies the Service's http address. |
| `DuckTypeProperties.RunRepeatedIsOnePass` | pkg/reconciler/ducktype/ducktype.go:57-89 | Running reconciliation n >= 1 times against an unchanged cluster leaves the status the first pass left. |

## Left out

- Logging (`logging.FromContext`, `Errorf`, `Info`) and the `context.Context` argument are left out. They have no effect on results.
- The tracker's index and the lister's cache are not modelled. Only their answers are: success, a not-found error, or any other error. The Service object returned by `Get` is not modelled either, because the reconciler never reads it.
- `network.GetServiceHostname` is an uninterpreted deterministic function. Its body, and the cluster domain it reads, are not part of this model.
- The bodies of `MarkServiceAvailable` and `MarkServiceUnavailable` are not part of this model. They are modelled as setting the single Ready condition, to True or to False with the Service name as its reason. Timestamps, the split between a condition's reason and message, and any address clearing are not modelled.
- The printf-style rendering of the event message is not modelled. The event keeps its format string and arguments as a record.
- The compile-time interface assertion is not modelled. Neither are the work queue and informers that invoke the reconciler and serialise passes per resource. They are scaffolding and scheduling, not decision logic.
