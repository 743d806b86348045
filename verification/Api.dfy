/** The custom resources as the operator stores them: kinds, references, spec, status and the
    metadata its state machine reads (api/v1alpha1).  All nine kinds share one record; a kind
    leaves the fields it does not have at their zero value. */
module Api {

  datatype Option<+T> = None | Some(value: T)

  datatype Kind =
    | Project | Vpc | Subnet | SecurityGroup | SecurityRule
    | BlockStorage | ElasticIp | KeyPair | CloudServer

  datatype Reference = Reference(namespace: string, name: string)

  datatype Key = Key(kind: Kind, ref: Reference)

  /** `Initial` is the empty string; `Deleted` is declared by the API but see PhaseGraph. */
  datatype Phase = Initial | Creating | Provisioning | Created | Updating | Deleting | Deleted | Failed

  datatype ConditionStatus = True | False | Unknown

  datatype ConditionType = Synchronized | OtherType(name: string)

  datatype Reason =
    | ReconciliationTimeout | ToBeDeleted | ResourceNotReady | ClientError | ServerError
    | ReconcileError | Initialized | ProvisioningReason | CreatedReason | UpdatedReason
    | ProvisioningFailed | UpdatingReason | UpdatingDataVolumes | OtherReason(text: string)

  /** Times are nanoseconds on the operator's clock. */
  datatype Condition = Condition(
    ty: ConditionType, status: ConditionStatus, reason: Reason, message: string, lastTransition: int)

  /** `settings` stands for every value a request body copies from the spec without
      resolving it (tags, location, flavour, size, port, ...). */
  datatype Spec = Spec(
    tenant: string, settings: string,
    project: Reference, vpc: Reference, securityGroup: Reference,
    bootVolume: Reference, keyPair: Reference, elasticIp: Option<Reference>,
    subnets: seq<Reference>, securityGroups: seq<Reference>, dataVolumes: seq<Reference>)

  /** The remote identifiers a resource is tied to: resolved from references when a request is
      built, and kept in the status once the remote cloud has acknowledged it. */
  datatype Links = Links(
    projectID: string, vpcID: string, securityGroupID: string,
    bootVolumeID: string, keyPairID: string, elasticIpID: string,
    subnetIDs: seq<string>, securityGroupIDs: seq<string>)

  const NO_LINKS: Links := Links("", "", "", "", "", "", [], [])

  datatype Status = Status(
    phase: Phase, message: string, resourceID: string, observedGeneration: int,
    phaseStartTime: Option<int>, conditions: seq<Condition>,
    links: Links, dataVolumeIDs: seq<string>)

  const NO_STATUS: Status := Status(Initial, "", "", 0, None, [], NO_LINKS, [])

  /** `Operator(k)` is the finalizer of the controller of kind k. */
  datatype Finalizer = Operator(kind: Kind) | Foreign(name: string)

  /** A stored object. */
  datatype Object = Object(
    key: Key, spec: Spec, generation: int, finalizers: seq<Finalizer>,
    deleting: bool, status: Status)
  {
    /** The operator's own finalizer is on the object. */
    predicate Guarded() { Operator(key.kind) in finalizers }
  }

  /** Looking up a reference: the lookup fails when the object cannot be read, and when it
      carries no remote identifier yet.  `refs` maps each readable object to the ResourceID
      in its status. */
  function Lookup(refs: map<Key, string>, kind: Kind, ref: Reference): Option<string> {
    if Key(kind, ref) in refs && refs[Key(kind, ref)] != "" then Some(refs[Key(kind, ref)]) else None
  }

  predicate AllResolve(refs: map<Key, string>, kind: Kind, rs: seq<Reference>) {
    forall i :: 0 <= i < |rs| ==> Lookup(refs, kind, rs[i]).Some?
  }

  function LookupAll(refs: map<Key, string>, kind: Kind, rs: seq<Reference>): seq<string>
    requires AllResolve(refs, kind, rs)
  {
    seq(|rs|, i requires 0 <= i < |rs| => Lookup(refs, kind, rs[i]).value)
  }
}
