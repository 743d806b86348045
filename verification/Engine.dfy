/** One reconcile step as a function of the stored object and of what the environment answers
    (internal/reconciler/reconciler.go and the controllers).  Module Operator gives the same
    step in the operator's imperative form and proves that the two agree. */
module Engine {
  import opened Api
  import opened Helper
  import Conditions
  import opened Volumes

  const SECOND: int := 1_000_000_000
  const REQUEUE_AFTER: int := 20 * SECOND
  const MAX_PHASE_TIMEOUT: int := 300 * SECOND

  // ---------- requests to the remote cloud ----------

  /** The identifiers in a request's URL; a kind that does not nest leaves them empty. */
  datatype Path = Path(projectID: string, vpcID: string, securityGroupID: string, resourceID: string)

  datatype Call =
    | Post(parent: Path, spec: Spec, links: Links)
    | Get(path: Path)
    | Put(path: Path, spec: Spec, links: Links)
    | AttachDetach(path: Path, toAttach: seq<string>, toDetach: seq<string>)
    | Remove(path: Path)
  {
    function Method(): Method {
      match this
      case Post(_, _, _) => POST
      case Get(_) => GET
      case Put(_, _, _) => PUT
      case AttachDetach(_, _, _) => POST
      case Remove(_) => DELETE
    }

    function Target(): Path { if Post? then parent else path }
  }

  datatype Exchange = Exchange(call: Call, answer: Answer)
  {
    function Reply(): Reply { Classify(call.Method(), answer) }

    predicate Acknowledged() { Reply().Ok? }
  }

  function PathOf(kind: Kind, links: Links, resourceID: string): Path {
    match kind
    case Project => Path("", "", "", resourceID)
    case Vpc | BlockStorage | ElasticIp | KeyPair | CloudServer => Path(links.projectID, "", "", resourceID)
    case Subnet | SecurityGroup => Path(links.projectID, links.vpcID, "", resourceID)
    case SecurityRule => Path(links.projectID, links.vpcID, links.securityGroupID, resourceID)
  }

  function Address(o: Object): Path {
    PathOf(o.key.kind, o.status.links, o.status.resourceID)
  }

  // ---------- the environment of one step ----------

  /** Everything a step learns from outside: the clock, whether its own read, the
      authentication and its writes succeed, the references it can read, and the answers of
      the remote cloud (`volumeAnswer` to an attach/detach, `answer` to any other call). */
  datatype Env = Env(
    now: int, readOk: bool, vaultEnabled: bool, authOk: bool, refs: map<Key, string>,
    answer: Answer, volumeAnswer: Answer, metaLands: bool, statusLands: bool, text: string)

  datatype Move = Move(next: Phase, cond: ConditionStatus, reason: Reason, requeue: bool)

  /** What a handler decides: to end the step, to take the operator's finalizer off after an
      acknowledged DELETE, or to call Next with `mem`, the status as the step has changed it
      in memory (`guard`: after a landed write that put the finalizer on). */
  datatype Plan =
    | Halt(calls: seq<Exchange>, ret: Return)
    | Release(calls: seq<Exchange>)
    | Go(guard: bool, mem: Status, move: Move, calls: seq<Exchange>)

  /** The fate of a step's status write. */
  datatype Write = NoWrite | Debounced | Rejected(move: Move) | Landed(move: Move)

  datatype Return = Return(requeue: bool, after: int, failed: bool)

  const DONE: Return := Return(false, 0, false)
  const ERROR: Return := Return(false, 0, true)

  /** `post` is what the store holds afterwards; None once the object has left the cluster. */
  datatype Outcome = Outcome(post: Option<Object>, calls: seq<Exchange>, write: Write, ret: Return)

  // ---------- Next ----------

  /** Go's integer division truncates toward zero. */
  function GoDiv(a: int, b: int): int
    requires b > 0
  {
    if a >= 0 then a / b else -((-a) / b)
  }

  function TimeToNextInterval(elapsed: int): int {
    (GoDiv(elapsed, REQUEUE_AFTER) + 1) * REQUEUE_AFTER - elapsed
  }

  /** The empty phase is renamed before it is compared, so it never equals the next phase. */
  predicate SamePhase(phase: Phase, next: Phase) {
    phase != Initial && phase == next
  }

  predicate Skips(st: Status, now: int, m: Move) {
    && m.requeue && SamePhase(st.phase, m.next) && st.phaseStartTime.Some?
    && 0 < TimeToNextInterval(now - st.phaseStartTime.value) < REQUEUE_AFTER
  }

  function Advance(st: Status, generation: int, now: int, m: Move, text: string): Status {
    st.(phaseStartTime := if st.phaseStartTime.None? || !SamePhase(st.phase, m.next) then Some(now)
                          else st.phaseStartTime,
        phase := m.next,
        message := text,
        observedGeneration := generation,
        conditions := Conditions.Updated(st.conditions, Synchronized, m.cond, m.reason, text, now))
  }

  /** `o` is what the store holds, `mem` the status as the step has it in memory. */
  function Next(o: Object, mem: Status, m: Move, env: Env, calls: seq<Exchange>): Outcome {
    if Skips(mem, env.now, m) then
      Outcome(Some(o), calls, Debounced,
              Return(false, TimeToNextInterval(env.now - mem.phaseStartTime.value), false))
    else if env.statusLands then
      Outcome(Some(o.(status := Advance(mem, o.generation, env.now, m, env.text))), calls, Landed(m),
              Return(m.requeue, REQUEUE_AFTER, false))
    else
      Outcome(Some(o), calls, Rejected(m), ERROR)
  }

  function Guard(o: Object): Object {
    o.(finalizers := o.finalizers + [Operator(o.key.kind)])
  }

  function Unguard(o: Object): Object {
    o.(finalizers := Without(o.finalizers, [Operator(o.key.kind)]))
  }

  /** The API server drops an object marked for deletion once its finalizer list is empty. */
  function Purge(o: Object): Option<Object> {
    if o.deleting && o.finalizers == [] then None else Some(o)
  }

  function Perform(o: Object, p: Plan, env: Env): Outcome {
    match p
    case Halt(calls, ret) => Outcome(Some(o), calls, NoWrite, ret)
    case Release(calls) => Outcome(Purge(Unguard(o)), calls, NoWrite, DONE)
    case Go(guard, mem, move, calls) => Next(if guard then Guard(o) else o, mem, move, env, calls)
  }

  // ---------- moves ----------

  const TIMEOUT: Move := Move(Failed, False, ReconciliationTimeout, false)
  const TO_BE_DELETED: Move := Move(Deleting, False, ToBeDeleted, true)
  const INITIALIZED: Move := Move(Creating, False, Initialized, true)
  const PROVISIONING: Move := Move(Provisioning, False, ProvisioningReason, true)
  const CREATED: Move := Move(Created, True, CreatedReason, true)
  const STILL_PROVISIONING: Move := Move(Provisioning, True, ProvisioningReason, true)
  const PROVISIONING_FAILED: Move := Move(Failed, True, ProvisioningFailed, false)
  const UPDATING: Move := Move(Updating, False, UpdatingReason, true)
  const UPDATING_VOLUMES: Move := Move(Updating, False, UpdatingDataVolumes, true)
  const UPDATED: Move := Move(Created, True, UpdatedReason, true)

  function FailureMove(phase: Phase, f: Failure): Move {
    match f
    case PlainError => Move(phase, False, ReconcileError, true)
    case ApiError(code) =>
      if IsInvalidStatus(code) then Move(phase, False, ResourceNotReady, true)
      else if 400 <= code < 500 then Move(Failed, False, ClientError, false)
      else if code >= 500 then Move(phase, False, ServerError, true)
      else Move(phase, False, ReconcileError, true)
  }

  function Fail(mem: Status, f: Failure, calls: seq<Exchange>): Plan {
    Go(false, mem, FailureMove(mem.phase, f), calls)
  }

  // ---------- the phase handlers ----------

  predicate TimedOut(st: Status, now: int) {
    && st.phaseStartTime.Some?
    && st.phase in {Creating, Provisioning, Updating, Deleting}
    && now - st.phaseStartTime.value > MAX_PHASE_TIMEOUT
  }

  predicate ToDelete(o: Object) {
    o.status.phase != Deleting && o.status.phase != Failed && o.deleting
  }

  function Initialize(o: Object, env: Env): Plan {
    if o.Guarded() then Go(false, o.status, INITIALIZED, [])
    else if env.metaLands then Go(true, o.status, INITIALIZED, [])
    else Fail(o.status, PlainError, [])
  }

  /** The references of a create request, resolved; None when one of them fails. */
  function ResolveForCreate(kind: Kind, spec: Spec, refs: map<Key, string>): Option<Links> {
    if kind.Project? then Some(NO_LINKS)
    else
      var project := Lookup(refs, Project, spec.project);
      if project.None? then None
      else
        var links := NO_LINKS.(projectID := project.value);
        if kind in {Vpc, BlockStorage, ElasticIp, KeyPair} then Some(links)
        else
          var vpc := Lookup(refs, Vpc, spec.vpc);
          if vpc.None? then None
          else
            var links := links.(vpcID := vpc.value);
            if kind in {Subnet, SecurityGroup} then Some(links)
            else if kind.SecurityRule? then
              var group := Lookup(refs, SecurityGroup, spec.securityGroup);
              if group.None? then None else Some(links.(securityGroupID := group.value))
            else
              var boot := Lookup(refs, BlockStorage, spec.bootVolume);
              var pair := Lookup(refs, KeyPair, spec.keyPair);
              var attached := ResolveAttachments(spec, refs, links);
              if boot.None? || pair.None? || attached.None? then None
              else Some(attached.value.(bootVolumeID := boot.value, keyPairID := pair.value))
  }

  /** The references a CloudServer's property update resolves again. */
  function ResolveAttachments(spec: Spec, refs: map<Key, string>, links: Links): Option<Links> {
    var ip := if spec.elasticIp.Some? then Lookup(refs, ElasticIp, spec.elasticIp.value) else Some("");
    if !AllResolve(refs, Subnet, spec.subnets) || !AllResolve(refs, SecurityGroup, spec.securityGroups)
       || ip.None? then None
    else Some(links.(subnetIDs := LookupAll(refs, Subnet, spec.subnets),
                     securityGroupIDs := LookupAll(refs, SecurityGroup, spec.securityGroups),
                     elasticIpID := ip.value))
  }

  /** The links in the status after an acknowledged create: each kind sets the fields it has. */
  function Recorded(kind: Kind, held: Links, resolved: Links): Links {
    match kind
    case Project => held
    case Vpc | BlockStorage | ElasticIp | KeyPair => held.(projectID := resolved.projectID)
    case Subnet | SecurityGroup => held.(projectID := resolved.projectID, vpcID := resolved.vpcID)
    case SecurityRule => held.(projectID := resolved.projectID, vpcID := resolved.vpcID,
                               securityGroupID := resolved.securityGroupID)
    case CloudServer => held.(projectID := resolved.projectID, vpcID := resolved.vpcID,
                              bootVolumeID := resolved.bootVolumeID, keyPairID := resolved.keyPairID,
                              subnetIDs := resolved.subnetIDs, securityGroupIDs := resolved.securityGroupIDs,
                              elasticIpID := if resolved.elasticIpID != "" then resolved.elasticIpID
                                             else held.elasticIpID)
  }

  function Create(o: Object, env: Env): Plan {
    var links := ResolveForCreate(o.key.kind, o.spec, env.refs);
    if links.None? then Fail(o.status, PlainError, [])
    else
      var x := Exchange(Post(PathOf(o.key.kind, links.value, ""), o.spec, links.value), env.answer);
      match x.Reply()
      case Err(f) => Fail(o.status, f, [x])
      case Ok(id, state) =>
        var mem := o.status.(resourceID := id, links := Recorded(o.key.kind, o.status.links, links.value));
        if !o.key.kind.Project? && (state.InCreation? || state.BeingProvisioned?)
        then Go(false, mem, PROVISIONING, [x])
        else Go(false, mem, CREATED, [x])
  }

  function Provision(o: Object, env: Env): Plan {
    if o.key.kind.Project? then Halt([], DONE)
    else
      var x := Exchange(Get(Address(o)), env.answer);
      match x.Reply()
      case Err(f) => Fail(o.status, f, [x])
      case Ok(_, state) =>
        if state.Available? || state.Active? || state.NotUsed? || state.Used?
        then Go(false, o.status, CREATED, [x])
        else if state.RemoteFailed? || state.RemoteError?
        then Go(false, o.status, PROVISIONING_FAILED, [x])
        else Go(false, o.status, STILL_PROVISIONING, [x])
  }

  function Update(o: Object, env: Env): Plan {
    if o.key.kind.CloudServer? then UpdateServer(o, env)
    else
      var x := Exchange(Put(Address(o), o.spec, o.status.links), env.answer);
      match x.Reply()
      case Err(f) => Fail(o.status, f, [x])
      case Ok(_, _) => Go(false, o.status, UPDATED, [x])
  }

  function UpdateServer(o: Object, env: Env): Plan {
    if o.status.observedGeneration == o.generation then UpdateVolumes(o, o.status, env, [])
    else
      var links := ResolveAttachments(o.spec, env.refs, o.status.links);
      if links.None? then Fail(o.status, PlainError, [])
      else
        var x := Exchange(Put(Address(o), o.spec, links.value), env.answer);
        match x.Reply()
        case Err(f) => Fail(o.status, f, [x])
        case Ok(_, _) =>
          // The resolved elastic IP lives in an inner variable; the outer one is still empty here.
          UpdateVolumes(o, o.status.(links := links.value.(elasticIpID := "")), env, [x])
  }

  function UpdateVolumes(o: Object, mem: Status, env: Env, calls: seq<Exchange>): Plan {
    if !AllResolve(env.refs, BlockStorage, o.spec.dataVolumes) then Fail(mem, PlainError, calls)
    else
      var desired := LookupAll(env.refs, BlockStorage, o.spec.dataVolumes);
      var toAttach, toDetach := Without(desired, mem.dataVolumeIDs), Without(mem.dataVolumeIDs, desired);
      if |toAttach| == 0 && |toDetach| == 0 then Go(false, mem, UPDATED, calls)
      else
        var x := Exchange(AttachDetach(Address(o), toAttach, toDetach), env.volumeAnswer);
        match x.Reply()
        case Err(f) => Fail(mem, f, calls + [x])
        case Ok(_, _) => Go(false, mem.(dataVolumeIDs := desired), UPDATED, calls + [x])
  }

  function CheckForUpdates(o: Object, env: Env): Plan {
    if o.status.observedGeneration != o.generation then Go(false, o.status, UPDATING, [])
    else Halt([], DONE)
  }

  function Steady(o: Object, env: Env): Plan {
    if !o.key.kind.CloudServer? then CheckForUpdates(o, env)
    else if !AllResolve(env.refs, BlockStorage, o.spec.dataVolumes) then Fail(o.status, PlainError, [])
    else
      var desired := LookupAll(env.refs, BlockStorage, o.spec.dataVolumes);
      if |Without(desired, o.status.dataVolumeIDs)| > 0 || |Without(o.status.dataVolumeIDs, desired)| > 0
      then Go(false, o.status, UPDATING_VOLUMES, [])
      else CheckForUpdates(o, env)
  }

  function Delete(o: Object, env: Env): Plan {
    var x := Exchange(Remove(Address(o)), env.answer);
    match x.Reply()
    case Err(f) => Fail(o.status, f, [x])
    case Ok(_, _) =>
      if !o.Guarded() then Halt([x], DONE)
      else if env.metaLands then Release([x])
      else Fail(o.status, PlainError, [x])
  }

  function Handle(o: Object, env: Env): Plan {
    match o.status.phase
    case Initial => Initialize(o, env)
    case Creating => Create(o, env)
    case Provisioning => Provision(o, env)
    case Updating => Update(o, env)
    case Created => Steady(o, env)
    case Deleting => Delete(o, env)
    case Deleted => Halt([], DONE)
    case Failed => Halt([], DONE)
  }

  function Decide(o: Object, env: Env): Plan {
    if !env.readOk || (o.spec.tenant == "" && env.vaultEnabled) || !env.authOk then Halt([], ERROR)
    else if TimedOut(o.status, env.now) then Go(false, o.status, TIMEOUT, [])
    else if ToDelete(o) then Go(false, o.status, TO_BE_DELETED, [])
    else Handle(o, env)
  }

  function Reconcile(o: Object, env: Env): Outcome {
    Perform(o, Decide(o, env), env)
  }
}
