/** The operator in its own form: a reconciler that reads an object into memory, changes the
    copy, sends requests and writes the copy back (internal/reconciler/reconciler.go, the
    controllers and internal/client/helper.go).  Every method is proved to do what the
    function of the same step in module Engine says. */
module Operator {
  import opened Api
  import opened Helper
  import opened Engine
  import opened Volumes
  import Conditions

  /** An object as one reconcile has it in memory. */
  class Resource {
    const key: Key
    var spec: Spec
    var generation: int
    var finalizers: seq<Finalizer>
    var deleting: bool
    var phase: Phase
    var message: string
    var resourceID: string
    var observedGeneration: int
    var phaseStartTime: Option<int>
    var conditions: seq<Condition>
    var links: Links
    var dataVolumeIDs: seq<string>

    constructor (key: Key)
      ensures this.key == key
    {
      this.key := key;
      spec := Spec("", "", key.ref, key.ref, key.ref, key.ref, key.ref, None, [], [], []);
      generation, finalizers, deleting := 0, [], false;
      phase, message, resourceID, observedGeneration := Initial, "", "", 0;
      phaseStartTime, conditions, links, dataVolumeIDs := None, [], NO_LINKS, [];
    }

    function Status(): Status
      reads this
    {
      Api.Status.Status(phase, message, resourceID, observedGeneration, phaseStartTime, conditions,
                        links, dataVolumeIDs)
    }

    function Value(): Object
      reads this
    {
      Object(key, spec, generation, finalizers, deleting, Status())
    }
  }

  function Commit(objects: map<Key, Object>, key: Key, post: Option<Object>): map<Key, Object> {
    if post.Some? then objects[key := post.value] else objects - {key}
  }

  /** The Kubernetes API server, as far as the operator uses it: a write lands as a whole or is
      rejected without effect. */
  class ApiServer {
    var objects: map<Key, Object>

    constructor ()
      ensures objects == map[]
    {
      objects := map[];
    }

    /** What is stored and what is in memory differ in the status and the finalizers at most. */
    ghost predicate Holds(obj: Resource)
      reads this, obj
    {
      && obj.key in objects
      && objects[obj.key] == obj.Value().(status := objects[obj.key].status,
                                          finalizers := objects[obj.key].finalizers)
    }

    method Get(obj: Resource) returns (found: bool)
      requires obj.key in objects ==> objects[obj.key].key == obj.key
      modifies obj
      ensures found <==> obj.key in objects
      ensures found ==> obj.Value() == objects[obj.key]
      ensures !found ==> obj.Value() == old(obj.Value())
    {
      found := obj.key in objects;
      if found {
        var o := objects[obj.key];
        obj.spec, obj.generation, obj.finalizers, obj.deleting := o.spec, o.generation, o.finalizers, o.deleting;
        obj.phase, obj.message, obj.resourceID := o.status.phase, o.status.message, o.status.resourceID;
        obj.observedGeneration, obj.phaseStartTime := o.status.observedGeneration, o.status.phaseStartTime;
        obj.conditions, obj.links, obj.dataVolumeIDs := o.status.conditions, o.status.links, o.status.dataVolumeIDs;
      }
    }

    /** The status subresource: everything but the status is ignored. */
    method UpdateStatus(obj: Resource, lands: bool) returns (ok: bool)
      requires obj.key in objects
      modifies this
      ensures ok == lands
      ensures objects == if lands then old(objects)[obj.key := old(objects[obj.key]).(status := obj.Status())]
                         else old(objects)
    {
      ok := lands;
      if lands {
        objects := objects[obj.key := objects[obj.key].(status := obj.Status())];
      }
    }

    /** The main resource: the status is ignored.  An object marked for deletion goes when its
        last finalizer does. */
    method Update(obj: Resource, lands: bool) returns (ok: bool)
      requires Holds(obj)
      modifies this
      ensures ok == lands
      ensures objects == if lands
        then Commit(old(objects), obj.key,
                    Purge(old(objects[obj.key]).(spec := obj.spec, finalizers := obj.finalizers)))
        else old(objects)
      ensures obj.key in objects <==> !(lands && obj.deleting && obj.finalizers == [])
      ensures forall k :: k != obj.key ==> (k in objects <==> k in old(objects))
    {
      ok := lands;
      if lands {
        var o := objects[obj.key].(spec := obj.spec, finalizers := obj.finalizers);
        if o.deleting && o.finalizers == [] {
          objects := objects - {obj.key};
        } else {
          objects := objects[obj.key := o];
        }
      }
    }
  }

  /** The HTTP client (internal/client/helper.go), with the exchanges it has had. */
  class HelperClient {
    var apiToken: string
    var calls: seq<Exchange>

    constructor ()
      ensures calls == []
    {
      apiToken, calls := "", [];
    }

    method SetAPIToken(token: string)
      modifies this`apiToken
      ensures apiToken == token
    {
      apiToken := token;
    }

    method DoAPIRequest(call: Call, answer: Answer) returns (reply: Reply)
      modifies this`calls
      ensures calls == old(calls) + [Exchange(call, answer)]
      ensures reply == Classify(call.Method(), answer)
      ensures reply.Ok? <==>
                if call.Remove?
                then answer.Response? && !answer.body.Unreadable? && answer.code in {200, 201, 202, 204, 404, 405}
                else answer.Response? && (answer.body.Empty? || answer.body.Parsed?)
                     && answer.code in {200, 201, 202, 204}
    {
      calls := calls + [Exchange(call, answer)];
      if answer.NoResponse? || answer.body.Unreadable? {
        return Err(PlainError);
      }
      var expectedStatuses := [200, 201, 202, 204];
      if call.Method() == DELETE {
        expectedStatuses := expectedStatuses + [404, 405];
      }
      if answer.code in expectedStatuses {
        var wantsBody := call.Method() != DELETE;
        if wantsBody && !answer.body.Empty? {
          if answer.body.Garbled? {
            return Err(PlainError);
          }
          return Ok(answer.body.id, answer.body.state);
        }
        return Ok("", OtherState(""));
      }
      if answer.code >= 400 && answer.code < 600 {
        if !answer.body.Empty? && answer.body.Garbled? {
          return Err(PlainError);
        }
        return Err(ApiError(answer.code));
      }
      return Err(PlainError);
    }
  }

  /** The readable references are those of stored objects. */
  predicate Readable(objects: map<Key, Object>, refs: map<Key, string>) {
    forall k :: k in refs ==> k in objects && objects[k].status.resourceID == refs[k]
  }

  /** A reconciler did to the cluster and to the remote cloud what a plan says. */
  predicate Did(objects: map<Key, Object>, calls: seq<Exchange>, o: Object, p: Plan, env: Env,
                objects': map<Key, Object>, calls': seq<Exchange>, ret: Return) {
    var out := Perform(o, p, env);
    objects' == Commit(objects, o.key, out.post) && calls' == calls + out.calls && ret == out.ret
  }

  /** What Next does to the store does not depend on the requests that were sent before it. */
  lemma NextIgnoresCalls(o: Object, mem: Status, m: Move, env: Env, calls: seq<Exchange>)
    ensures var out, out' := Engine.Next(o, mem, m, env, calls), Engine.Next(o, mem, m, env, []);
            out.post == out'.post && out.ret == out'.ret && out.calls == calls
  {
  }

  class Reconciler {
    const api: ApiServer
    const helper: HelperClient

    constructor (api: ApiServer, helper: HelperClient)
      ensures this.api == api && this.helper == helper
    {
      this.api, this.helper := api, helper;
    }

    /** The second half of Next: advance the copy in memory and write its status. */
    method WriteStatus(obj: Resource, m: Move, env: Env) returns (ret: Return)
      requires api.Holds(obj)
      modifies obj, api
      ensures obj.Value() == old(obj.Value()).(status := Advance(old(obj.Status()), old(obj.generation),
                                                                 env.now, m, env.text))
      ensures api.objects == if env.statusLands
                             then old(api.objects)[obj.key := old(api.objects[obj.key]).(status := obj.Status())]
                             else old(api.objects)
      ensures ret == if env.statusLands then Return(m.requeue, REQUEUE_AFTER, false) else ERROR
    {
      hide Conditions.Updated;
      if obj.phaseStartTime.None? || !SamePhase(obj.phase, m.next) {
        obj.phaseStartTime := Some(env.now);
      }
      obj.phase := m.next;
      obj.message := env.text;
      obj.observedGeneration := obj.generation;
      obj.conditions := Conditions.UpdateConditions(obj.conditions, Synchronized, m.cond, m.reason, env.text, env.now);
      var ok := api.UpdateStatus(obj, env.statusLands);
      if !ok {
        return ERROR;
      }
      return Return(m.requeue, REQUEUE_AFTER, false);
    }

    /** The step at the end of almost every path: debounce, or advance the copy in memory and
        write its status. */
    method Next(obj: Resource, m: Move, env: Env) returns (ret: Return)
      requires api.Holds(obj)
      modifies obj, api
      ensures var out := Engine.Next(old(api.objects[obj.key]), old(obj.Status()), m, env, []);
              api.objects == Commit(old(api.objects), obj.key, out.post) && ret == out.ret
      ensures obj.Value() == if Skips(old(obj.Status()), env.now, m) then old(obj.Value())
                             else old(obj.Value()).(status := Advance(old(obj.Status()), old(obj.generation),
                                                                      env.now, m, env.text))
    {
      hide Advance;
      assert Commit(api.objects, obj.key, Some(api.objects[obj.key])) == api.objects;
      if m.requeue && SamePhase(obj.phase, m.next) && obj.phaseStartTime.Some? {
        var timeSincePhaseStart := env.now - obj.phaseStartTime.value;
        var intervalsElapsed := GoDiv(timeSincePhaseStart, REQUEUE_AFTER);
        var nextInterval := (intervalsElapsed + 1) * REQUEUE_AFTER;
        var timeToNextInterval := nextInterval - timeSincePhaseStart;
        if timeToNextInterval > 0 && timeToNextInterval < REQUEUE_AFTER {
          return Return(false, timeToNextInterval, false);
        }
      }
      ret := WriteStatus(obj, m, env);
    }

    /** Client errors other than 400 and 404 fail the object; everything else retries in place. */
    method NextToFailedOnApiError(obj: Resource, f: Failure, env: Env) returns (ret: Return)
      requires api.Holds(obj)
      modifies obj, api
      ensures var out := Engine.Next(old(api.objects[obj.key]), old(obj.Status()),
                                     FailureMove(old(obj.phase), f), env, []);
              api.objects == Commit(old(api.objects), obj.key, out.post) && ret == out.ret
    {
      if f.ApiError? {
        if IsInvalidStatus(f.status) {
          ret := Next(obj, Move(obj.phase, False, ResourceNotReady, true), env);
          return;
        }
        if f.status >= 400 && f.status < 500 {
          ret := Next(obj, Move(Failed, False, ClientError, false), env);
          return;
        }
        if f.status >= 500 {
          ret := Next(obj, Move(obj.phase, False, ServerError, true), env);
          return;
        }
      }
      ret := Next(obj, Move(obj.phase, False, ReconcileError, true), env);
    }

    method HandlePhaseTimeout(obj: Resource, env: Env) returns (isTimeout: bool, ret: Return)
      requires api.Holds(obj)
      modifies obj, api
      ensures isTimeout == TimedOut(old(obj.Status()), env.now)
      ensures isTimeout <==>
                && old(obj.phase) in {Creating, Provisioning, Updating, Deleting}
                && old(obj.phaseStartTime).Some? && env.now - old(obj.phaseStartTime).value > 300_000_000_000
      ensures !isTimeout ==> obj.Value() == old(obj.Value()) && api.objects == old(api.objects)
      ensures isTimeout ==>
                var out := Engine.Next(old(api.objects[obj.key]), old(obj.Status()), TIMEOUT, env, []);
                api.objects == Commit(old(api.objects), obj.key, out.post) && ret == out.ret
    {
      isTimeout, ret := false, DONE;
      if obj.phaseStartTime.None? {
        return;
      }
      var transitioningPhases := [Creating, Provisioning, Updating, Deleting];
      if obj.phase !in transitioningPhases {
        return;
      }
      var elapsed := env.now - obj.phaseStartTime.value;
      isTimeout := elapsed > MAX_PHASE_TIMEOUT;
      if isTimeout {
        ret := Next(obj, TIMEOUT, env);
      }
    }

    method HandleToDelete(obj: Resource, env: Env) returns (shouldBeDeleted: bool, ret: Return)
      requires api.Holds(obj)
      modifies obj, api
      ensures shouldBeDeleted == ToDelete(old(obj.Value()))
      ensures !shouldBeDeleted ==> obj.Value() == old(obj.Value()) && api.objects == old(api.objects)
      ensures shouldBeDeleted ==>
                var out := Engine.Next(old(api.objects[obj.key]), old(obj.Status()), TO_BE_DELETED, env, []);
                api.objects == Commit(old(api.objects), obj.key, out.post) && ret == out.ret
    {
      ret := DONE;
      shouldBeDeleted := obj.phase != Deleting && obj.phase != Failed && obj.deleting;
      if shouldBeDeleted {
        ret := Next(obj, TO_BE_DELETED, env);
      }
    }

    /** The Get...ID lookups: the referenced object must be readable and carry an identifier. */
    method GetID(kind: Kind, ref: Reference, env: Env) returns (id: Option<string>)
      requires Readable(api.objects, env.refs)
      ensures id == Lookup(env.refs, kind, ref)
      ensures id.Some? <==> Key(kind, ref) in env.refs && api.objects[Key(kind, ref)].status.resourceID != ""
      ensures id.Some? ==> id.value == api.objects[Key(kind, ref)].status.resourceID
    {
      if Key(kind, ref) !in env.refs {
        return None;
      }
      var referenced := api.objects[Key(kind, ref)];
      if referenced.status.resourceID == "" {
        return None;
      }
      return Some(referenced.status.resourceID);
    }

    /** The resolution loops: they stop at the first reference that does not resolve. */
    method GetIDs(kind: Kind, rs: seq<Reference>, env: Env) returns (ids: Option<seq<string>>)
      requires Readable(api.objects, env.refs)
      ensures ids.Some? <==> AllResolve(env.refs, kind, rs)
      ensures ids.Some? ==> ids.value == LookupAll(env.refs, kind, rs)
      ensures ids.Some? <==> forall r :: r in rs ==> Key(kind, r) in env.refs && env.refs[Key(kind, r)] != ""
    {
      var found: seq<string> := [];
      for i := 0 to |rs|
        invariant |found| == i
        invariant forall j :: 0 <= j < i ==> Lookup(env.refs, kind, rs[j]) == Some(found[j])
      {
        var id := GetID(kind, rs[i], env);
        if id.None? {
          return None;
        }
        found := found + [id.value];
      }
      return Some(found);
    }

    method ResolveAttachments(obj: Resource, links: Links, env: Env) returns (r: Option<Links>)
      requires Readable(api.objects, env.refs)
      ensures r == Engine.ResolveAttachments(obj.spec, env.refs, links)
    {
      var subnetIDs := GetIDs(Subnet, obj.spec.subnets, env);
      if subnetIDs.None? {
        return None;
      }
      var groupIDs := GetIDs(SecurityGroup, obj.spec.securityGroups, env);
      if groupIDs.None? {
        return None;
      }
      var elasticIpID := "";
      if obj.spec.elasticIp.Some? {
        var ip := GetID(ElasticIp, obj.spec.elasticIp.value, env);
        if ip.None? {
          return None;
        }
        elasticIpID := ip.value;
      }
      return Some(links.(subnetIDs := subnetIDs.value, securityGroupIDs := groupIDs.value,
                         elasticIpID := elasticIpID));
    }

    method ResolveForCreate(obj: Resource, env: Env) returns (r: Option<Links>)
      requires Readable(api.objects, env.refs)
      ensures r == Engine.ResolveForCreate(obj.key.kind, obj.spec, env.refs)
    {
      var links := NO_LINKS;
      if obj.key.kind == Project {
        return Some(links);
      }
      var projectID := GetID(Project, obj.spec.project, env);
      if projectID.None? {
        return None;
      }
      links := links.(projectID := projectID.value);
      if obj.key.kind in {Vpc, BlockStorage, ElasticIp, KeyPair} {
        return Some(links);
      }
      var vpcID := GetID(Vpc, obj.spec.vpc, env);
      if vpcID.None? {
        return None;
      }
      links := links.(vpcID := vpcID.value);
      if obj.key.kind in {Subnet, SecurityGroup} {
        return Some(links);
      }
      if obj.key.kind == SecurityRule {
        var groupID := GetID(SecurityGroup, obj.spec.securityGroup, env);
        if groupID.None? {
          return None;
        }
        return Some(links.(securityGroupID := groupID.value));
      }
      var bootVolumeID := GetID(BlockStorage, obj.spec.bootVolume, env);
      if bootVolumeID.None? {
        return None;
      }
      var keyPairID := GetID(KeyPair, obj.spec.keyPair, env);
      if keyPairID.None? {
        return None;
      }
      var attached := ResolveAttachments(obj, links, env);
      if attached.None? {
        return None;
      }
      return Some(attached.value.(bootVolumeID := bootVolumeID.value, keyPairID := keyPairID.value));
    }

    method InitializeResource(obj: Resource, env: Env) returns (ret: Return)
      requires obj.key in api.objects && api.objects[obj.key] == obj.Value()
      modifies obj, api
      ensures Did(old(api.objects), helper.calls, old(obj.Value()), Initialize(old(obj.Value()), env), env,
                  api.objects, helper.calls, ret)
    {
      hide Skips, Advance, FailureMove;
      if Finalizer.Operator(obj.key.kind) !in obj.finalizers {
        obj.finalizers := obj.finalizers + [Finalizer.Operator(obj.key.kind)];
        var ok := api.Update(obj, env.metaLands);
        if !ok {
          ret := NextToFailedOnApiError(obj, PlainError, env);
          return;
        }
      }
      ret := Next(obj, INITIALIZED, env);
    }

    method HandleCreating(obj: Resource, env: Env) returns (ret: Return)
      requires obj.key in api.objects && api.objects[obj.key] == obj.Value() && Readable(api.objects, env.refs)
      modifies obj, api, helper`calls
      ensures Did(old(api.objects), old(helper.calls), old(obj.Value()), Create(old(obj.Value()), env), env,
                  api.objects, helper.calls, ret)
    {
      hide PathOf, Classify, FailureMove, Skips, Advance, Recorded;
      var links := ResolveForCreate(obj, env);
      if links.None? {
        ret := NextToFailedOnApiError(obj, PlainError, env);
        return;
      }
      var reply := helper.DoAPIRequest(Post(PathOf(obj.key.kind, links.value, ""), obj.spec, links.value), env.answer);
      if reply.Err? {
        ret := NextToFailedOnApiError(obj, reply.failure, env);
        return;
      }
      ret := RecordCreated(obj, links.value, reply.id, reply.state, env);
    }

    method RecordCreated(obj: Resource, resolved: Links, id: string, state: RemoteState, env: Env) returns (ret: Return)
      requires api.Holds(obj)
      modifies obj, api
      ensures var links := Recorded(obj.key.kind, old(obj.links), resolved);
              var mem := old(obj.Status()).(resourceID := id, links := links);
              var provisioning := obj.key.kind != Project && (state.InCreation? || state.BeingProvisioned?);
              var move := if provisioning then PROVISIONING else CREATED;
              var out := Engine.Next(old(api.objects[obj.key]), mem, move, env, []);
              api.objects == Commit(old(api.objects), obj.key, out.post) && ret == out.ret
    {
      RecordLinks(obj, resolved);
      obj.resourceID := id;
      var reported := if obj.key.kind == Project then OtherState("") else state;
      if reported.InCreation? || reported.BeingProvisioned? {
        ret := Next(obj, PROVISIONING, env);
      } else {
        ret := Next(obj, CREATED, env);
      }
    }

    method RecordLinks(obj: Resource, resolved: Links)
      modifies obj`links
      ensures obj.links == Recorded(obj.key.kind, old(obj.links), resolved)
    {
      if obj.key.kind != Project {
        obj.links := obj.links.(projectID := resolved.projectID);
      }
      if obj.key.kind in {Subnet, SecurityGroup, SecurityRule, CloudServer} {
        obj.links := obj.links.(vpcID := resolved.vpcID);
      }
      if obj.key.kind == SecurityRule {
        obj.links := obj.links.(securityGroupID := resolved.securityGroupID);
      }
      if obj.key.kind == CloudServer {
        obj.links := obj.links.(subnetIDs := resolved.subnetIDs, securityGroupIDs := resolved.securityGroupIDs,
                                bootVolumeID := resolved.bootVolumeID);
        if resolved.elasticIpID != "" {
          obj.links := obj.links.(elasticIpID := resolved.elasticIpID);
        }
        obj.links := obj.links.(keyPairID := resolved.keyPairID);
      }
    }

    method HandleProvisioning(obj: Resource, env: Env) returns (ret: Return)
      requires obj.key in api.objects && api.objects[obj.key] == obj.Value()
      modifies obj, api, helper`calls
      ensures Did(old(api.objects), old(helper.calls), old(obj.Value()), Provision(old(obj.Value()), env), env,
                  api.objects, helper.calls, ret)
    {
      hide PathOf, Classify, FailureMove, Engine.Next;
      ghost var o, x := obj.Value(), Exchange(Get(Address(obj.Value())), env.answer);
      if obj.key.kind == Project {
        assert Commit(api.objects, obj.key, Some(obj.Value())) == api.objects;
        return DONE;
      }
      NextIgnoresCalls(o, o.status, Provision(o, env).move, env, [x]);
      var reply := helper.DoAPIRequest(Get(Address(obj.Value())), env.answer);
      if reply.Err? {
        ret := NextToFailedOnApiError(obj, reply.failure, env);
        return;
      }
      match reply.state
      case Available | Active | NotUsed | Used => ret := Next(obj, CREATED, env);
      case RemoteFailed | RemoteError => ret := Next(obj, PROVISIONING_FAILED, env);
      case _ => ret := Next(obj, STILL_PROVISIONING, env);
    }

    method HandleUpdating(obj: Resource, env: Env) returns (ret: Return)
      requires obj.key in api.objects && api.objects[obj.key] == obj.Value() && Readable(api.objects, env.refs)
      modifies obj, api, helper`calls
      ensures Did(old(api.objects), old(helper.calls), old(obj.Value()), Update(old(obj.Value()), env), env,
                  api.objects, helper.calls, ret)
    {
      if obj.key.kind == CloudServer {
        ret := UpdateCloudServer(obj, env);
        return;
      }
      var reply := helper.DoAPIRequest(Put(Address(obj.Value()), obj.spec, obj.links), env.answer);
      if reply.Err? {
        ret := NextToFailedOnApiError(obj, reply.failure, env);
        return;
      }
      ret := Next(obj, UPDATED, env);
    }

    method UpdateCloudServer(obj: Resource, env: Env) returns (ret: Return)
      requires obj.key in api.objects && api.objects[obj.key] == obj.Value() && Readable(api.objects, env.refs)
      modifies obj, api, helper`calls
      ensures Did(old(api.objects), old(helper.calls), old(obj.Value()), UpdateServer(old(obj.Value()), env), env,
                  api.objects, helper.calls, ret)
    {
      ghost var sent: seq<Exchange> := [];
      var needsPropertyUpdate := obj.observedGeneration != obj.generation;
      if needsPropertyUpdate {
        var links := ResolveAttachments(obj, obj.links, env);
        if links.None? {
          ret := NextToFailedOnApiError(obj, PlainError, env);
          return;
        }
        var elasticIpID := "";   // the resolved value stays in an inner variable of the same name
        var reply := helper.DoAPIRequest(Put(Address(obj.Value()), obj.spec, links.value), env.answer);
        sent := [Exchange(Put(Address(old(obj.Value())), old(obj.spec), links.value), env.answer)];
        if reply.Err? {
          ret := NextToFailedOnApiError(obj, reply.failure, env);
          return;
        }
        obj.links := obj.links.(subnetIDs := links.value.subnetIDs, securityGroupIDs := links.value.securityGroupIDs);
        obj.links := obj.links.(elasticIpID := if elasticIpID != "" then elasticIpID else "");
      }
      ret := ManageDataVolumesInUpdate(obj, env, old(helper.calls), sent);
    }

    /** `sent` are the requests of this step that have gone out already, after `before`. */
    method ManageDataVolumesInUpdate(obj: Resource, env: Env, ghost before: seq<Exchange>,
                                     ghost sent: seq<Exchange>) returns (ret: Return)
      requires api.Holds(obj) && Readable(api.objects, env.refs)
      requires Address(api.objects[obj.key]) == Address(obj.Value())
      requires helper.calls == before + sent
      modifies obj, api, helper`calls
      ensures var p := UpdateVolumes(old(api.objects[obj.key]), old(obj.Status()), env, sent);
              var out := Perform(old(api.objects[obj.key]), p, env);
              && api.objects == Commit(old(api.objects), obj.key, out.post) && ret == out.ret
              && helper.calls == before + out.calls
    {
      hide Engine.Next, PathOf, FailureMove, Classify;
      ghost var o, mem := api.objects[obj.key], obj.Status();
      var desired := GetIDs(BlockStorage, obj.spec.dataVolumes, env);
      if desired.None? {
        NextIgnoresCalls(o, mem, FailureMove(mem.phase, PlainError), env, sent);
        ret := NextToFailedOnApiError(obj, PlainError, env);
        return;
      }
      var toAttach, toDetach := CalculateVolumeChanges(desired.value, obj.dataVolumeIDs);
      if |toAttach| == 0 && |toDetach| == 0 {
        NextIgnoresCalls(o, mem, UPDATED, env, sent);
        ret := Next(obj, UPDATED, env);
        return;
      }
      ghost var x := Exchange(AttachDetach(Address(o), toAttach, toDetach), env.volumeAnswer);
      var reply := helper.DoAPIRequest(AttachDetach(Address(obj.Value()), toAttach, toDetach), env.volumeAnswer);
      assert helper.calls == before + (sent + [x]);
      if reply.Err? {
        NextIgnoresCalls(o, mem, FailureMove(mem.phase, reply.failure), env, sent + [x]);
        ret := NextToFailedOnApiError(obj, reply.failure, env);
        return;
      }
      obj.dataVolumeIDs := desired.value;
      NextIgnoresCalls(o, obj.Status(), UPDATED, env, sent + [x]);
      ret := Next(obj, UPDATED, env);
    }

    method CheckForUpdates(obj: Resource, env: Env) returns (ret: Return)
      requires obj.key in api.objects && api.objects[obj.key] == obj.Value()
      modifies obj, api
      ensures Did(old(api.objects), helper.calls, old(obj.Value()), Engine.CheckForUpdates(old(obj.Value()), env), env,
                  api.objects, helper.calls, ret)
    {
      if obj.observedGeneration != obj.generation {
        ret := Next(obj, UPDATING, env);
        return;
      }
      assert Commit(api.objects, obj.key, Some(obj.Value())) == api.objects;
      return DONE;
    }

    method HandleCreated(obj: Resource, env: Env) returns (ret: Return)
      requires obj.key in api.objects && api.objects[obj.key] == obj.Value() && Readable(api.objects, env.refs)
      modifies obj, api
      ensures Did(old(api.objects), helper.calls, old(obj.Value()), Steady(old(obj.Value()), env), env,
                  api.objects, helper.calls, ret)
    {
      if obj.key.kind == CloudServer {
        var desired := GetIDs(BlockStorage, obj.spec.dataVolumes, env);
        if desired.None? {
          ret := NextToFailedOnApiError(obj, PlainError, env);
          return;
        }
        var toAttach, toDetach := CalculateVolumeChanges(desired.value, obj.dataVolumeIDs);
        if |toAttach| > 0 || |toDetach| > 0 {
          ret := Next(obj, UPDATING_VOLUMES, env);
          return;
        }
      }
      ret := CheckForUpdates(obj, env);
    }

    method HandleDeletion(obj: Resource, env: Env) returns (ret: Return)
      requires obj.key in api.objects && api.objects[obj.key] == obj.Value()
      modifies obj, api, helper`calls
      ensures Did(old(api.objects), old(helper.calls), old(obj.Value()), Delete(old(obj.Value()), env), env,
                  api.objects, helper.calls, ret)
    {
      var reply := helper.DoAPIRequest(Remove(Address(obj.Value())), env.answer);
      if reply.Err? {
        ret := NextToFailedOnApiError(obj, reply.failure, env);
        return;
      }
      if Finalizer.Operator(obj.key.kind) in obj.finalizers {
        obj.finalizers := Without(obj.finalizers, [Finalizer.Operator(obj.key.kind)]);
        var ok := api.Update(obj, env.metaLands);
        if !ok {
          ret := NextToFailedOnApiError(obj, PlainError, env);
          return;
        }
        return DONE;
      }
      assert Commit(api.objects, obj.key, Some(obj.Value())) == api.objects;
      return DONE;
    }

    /** One reconcile of the object under `key`, on a fresh copy. */
    method Reconcile(key: Key, env: Env) returns (ret: Return)
      requires forall k :: k in api.objects ==> api.objects[k].key == k
      requires Readable(api.objects, env.refs)
      modifies api, helper`calls
      ensures key !in old(api.objects) ==>
                && api.objects == old(api.objects) && helper.calls == old(helper.calls)
                && ret == (if env.readOk then DONE else ERROR)
      ensures key in old(api.objects) ==>
                var out := Engine.Reconcile(old(api.objects[key]), env);
                && api.objects == Commit(old(api.objects), key, out.post)
                && helper.calls == old(helper.calls) + out.calls
                && ret == out.ret
                && (key in api.objects <==> out.post.Some?) && (out.post.Some? ==> api.objects[key] == out.post.value)
      ensures forall k :: k != key ==> (k in api.objects <==> k in old(api.objects))
      ensures forall k :: k != key && k in api.objects ==> api.objects[k] == old(api.objects)[k]
      ensures forall k :: k in api.objects ==> api.objects[k].key == k
    {
      hide Handle, TimedOut, ToDelete, Skips, Advance;
      if !env.readOk {
        assert key in api.objects ==> Commit(api.objects, key, Some(api.objects[key])) == api.objects;
        return ERROR;
      }
      var obj := new Resource(key);
      var found := api.Get(obj);
      if !found {
        return DONE;
      }
      assert Commit(api.objects, key, Some(obj.Value())) == api.objects;
      if obj.spec.tenant == "" && env.vaultEnabled {
        return ERROR;
      }
      if !env.authOk {
        return ERROR;
      }
      var isTimeout, timeoutRet := HandlePhaseTimeout(obj, env);
      if isTimeout {
        return timeoutRet;
      }
      var shouldBeDeleted, deleteRet := HandleToDelete(obj, env);
      if shouldBeDeleted {
        return deleteRet;
      }
      ret := Dispatch(obj, env);
    }

    method Dispatch(obj: Resource, env: Env) returns (ret: Return)
      requires obj.key in api.objects && api.objects[obj.key] == obj.Value() && Readable(api.objects, env.refs)
      modifies obj, api, helper`calls
      ensures Did(old(api.objects), old(helper.calls), old(obj.Value()), Handle(old(obj.Value()), env), env,
                  api.objects, helper.calls, ret)
    {
      match obj.phase
      case Initial => ret := InitializeResource(obj, env);
      case Creating => ret := HandleCreating(obj, env);
      case Provisioning => ret := HandleProvisioning(obj, env);
      case Updating => ret := HandleUpdating(obj, env);
      case Created => ret := HandleCreated(obj, env);
      case Deleting => ret := HandleDeletion(obj, env);
      case _ =>
        assert Commit(api.objects, obj.key, Some(obj.Value())) == api.objects;
        ret := DONE;
    }
  }
}
