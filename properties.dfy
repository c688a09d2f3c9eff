/** Properties of reconciliation: what one pass preserves, and what a run of
    passes against a changing cluster converges to. */
module DuckTypeProperties {
  import opened DuckTypeApi
  import opened DuckTypeReconciler

  /** Whenever the condition is true, the published address is the http
      address of the named Service. */
  ghost predicate AddressConsistent(o: DuckType, s: DuckTypeStatus, hostname: (string, string) -> string)
  {
    s.ready.status == True ==> s.address == Some(ServiceAddress(o, hostname))
  }

  /** A second pass with the same answers from the tracker and the lister
      makes the same calls, writes the same status and returns the same
      result: reconciling twice is reconciling once. */
  lemma ReconcileIdempotent(o: DuckType, s: DuckTypeStatus, trackErr: Option<Error>,
                            getErr: Option<Error>, hostname: (string, string) -> string)
    ensures var first := Reconcile(o, s, trackErr, getErr, hostname);
            Reconcile(o, first.status, trackErr, getErr, hostname) == first
  {
  }

  /** One pass keeps the address consistent with the condition. */
  lemma ReconcilePreservesAddressConsistent(o: DuckType, s: DuckTypeStatus, trackErr: Option<Error>,
                                            getErr: Option<Error>, hostname: (string, string) -> string)
    requires AddressConsistent(o, s, hostname)
    ensures AddressConsistent(o, Reconcile(o, s, trackErr, getErr, hostname).status, hostname)
  {
  }

  /** The pass that finds the Service missing does not withdraw an address
      published earlier: after it the condition is false while the address
      is still set. */
  lemma NotFoundKeepsPreviousAddress(o: DuckType, s: DuckTypeStatus, getErr: Option<Error>,
                                     hostname: (string, string) -> string)
    requires s.ready.status == True && s.address.Some?
    requires IsNotFound(getErr)
    ensures var after := Reconcile(o, s, None, getErr, hostname).status;
            after.ready.status == False && after.address == s.address
  {
  }

  /** What the tracker and the lister answer on one pass. */
  datatype Observation = Observation(trackErr: Option<Error>, getErr: Option<Error>)

  /** A pass is decisive when it learns whether the Service exists: the
      tracking succeeded and the lookup either found the Service or reported
      it not found. */
  predicate Decisive(ob: Observation)
  {
    ob.trackErr.None? && (ob.getErr.None? || IsNotFound(ob.getErr))
  }

  /** The status left by a run of passes, one per observation, in order. */
  function Run(o: DuckType, s: DuckTypeStatus, obs: seq<Observation>,
               hostname: (string, string) -> string): DuckTypeStatus
    decreases |obs|
  {
    if obs == [] then s
    else Run(o, Reconcile(o, s, obs[0].trackErr, obs[0].getErr, hostname).status, obs[1..], hostname)
  }

  /** The verdict of the last decisive pass of a run: Some(true) when it
      found the Service, Some(false) when it did not, None when no pass was
      decisive. */
  function LastVerdict(obs: seq<Observation>): Option<bool>
    decreases |obs|
  {
    if obs == [] then None
    else match LastVerdict(obs[1..])
      case Some(found) => Some(found)
      case None => if Decisive(obs[0]) then Some(obs[0].getErr.None?) else None
  }

  /** Level-triggered convergence: after any run the condition reflects the
      last decisive pass, and failed passes never overwrite status. With no
      decisive pass the status is exactly what it was; if the last decisive
      pass found the Service the condition is true and the address is
      published; if it did not, the condition is false naming the Service. */
  lemma {:induction false} RunReflectsLastVerdict(o: DuckType, s: DuckTypeStatus, obs: seq<Observation>,
                                                  hostname: (string, string) -> string)
    ensures LastVerdict(obs) == None ==> Run(o, s, obs, hostname) == s
    ensures LastVerdict(obs) == Some(true) ==>
              && Run(o, s, obs, hostname).ready.status == True
              && Run(o, s, obs, hostname).address == Some(ServiceAddress(o, hostname))
    ensures LastVerdict(obs) == Some(false) ==>
              Run(o, s, obs, hostname).ready == Condition(False, o.spec.serviceName)
    decreases |obs|
  {
    if obs != [] {
      var next := Reconcile(o, s, obs[0].trackErr, obs[0].getErr, hostname).status;
      RunReflectsLastVerdict(o, next, obs[1..], hostname);
    }
  }

  /** Whatever happens, the address a run leaves is either the one the
      resource started with or the http address of its Service. */
  lemma {:induction false} RunAddressProvenance(o: DuckType, s: DuckTypeStatus, obs: seq<Observation>,
                                                hostname: (string, string) -> string)
    ensures var a := Run(o, s, obs, hostname).address;
            a == s.address || a == Some(ServiceAddress(o, hostname))
    decreases |obs|
  {
    if obs != [] {
      var next := Reconcile(o, s, obs[0].trackErr, obs[0].getErr, hostname).status;
      RunAddressProvenance(o, next, obs[1..], hostname);
    }
  }

  /** Every run keeps the address consistent with the condition. */
  lemma {:induction false} RunPreservesAddressConsistent(o: DuckType, s: DuckTypeStatus, obs: seq<Observation>,
                                                         hostname: (string, string) -> string)
    requires AddressConsistent(o, s, hostname)
    ensures AddressConsistent(o, Run(o, s, obs, hostname), hostname)
    decreases |obs|
  {
    if obs != [] {
      var next := Reconcile(o, s, obs[0].trackErr, obs[0].getErr, hostname).status;
      ReconcilePreservesAddressConsistent(o, s, obs[0].trackErr, obs[0].getErr, hostname);
      RunPreservesAddressConsistent(o, next, obs[1..], hostname);
    }
  }

  /** Re-running reconciliation any number of times against an unchanged
      cluster leaves the status the first pass left. */
  lemma {:induction false} RunRepeatedIsOnePass(o: DuckType, s: DuckTypeStatus, ob: Observation, n: nat,
                                                hostname: (string, string) -> string)
    requires n >= 1
    ensures Run(o, s, seq(n, _ => ob), hostname) == Reconcile(o, s, ob.trackErr, ob.getErr, hostname).status
    decreases n
  {
    var once := Reconcile(o, s, ob.trackErr, ob.getErr, hostname).status;
    var obs := seq(n, _ => ob);
    assert obs[1..] == seq(n - 1, _ => ob);
    if n == 1 {
      assert Run(o, s, obs, hostname) == Run(o, once, [], hostname);
    } else {
      RunRepeatedIsOnePass(o, once, ob, n - 1, hostname);
      ReconcileIdempotent(o, s, ob.trackErr, ob.getErr, hostname);
    }
  }
}
