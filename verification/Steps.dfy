/** What every plan of the engine has in common, whatever the object and the environment.  The
    statements about whole runs rest on these facts and never look inside a handler again. */
module Steps {
  import opened Api
  import opened Engine

  /** The edges of the lifecycle graph, by kind. */
  predicate Edge(kind: Kind, from: Phase, to: Phase) {
    match from
    case Initial => to in {Initial, Creating, Deleting}
    case Creating =>
      to in {Creating, Provisioning, Created, Deleting, Failed} && (kind == Project ==> to != Provisioning)
    case Provisioning =>
      to in {Provisioning, Created, Deleting, Failed} && (kind == Project ==> to in {Deleting, Failed})
    case Created => to in {Updating, Deleting} || (to == Created && kind == CloudServer)
    case Updating => to in {Updating, Created, Deleting, Failed}
    case Deleting => to in {Deleting, Failed}
    case Deleted => to == Deleting
    case Failed => false
  }

  /** When a plan may choose the move it chooses. */
  predicate MoveOk(o: Object, env: Env, m: Move) {
    && Edge(o.key.kind, o.status.phase, m.next)
    && (m.requeue <==> m.next != Failed)
    && (m.next == Deleting ==> o.deleting || o.status.phase == Deleting)
    && (TimedOut(o.status, env.now) ==> m == TIMEOUT)
    && (!TimedOut(o.status, env.now) && ToDelete(o) ==> m == TO_BE_DELETED)
    && (m.next == Updating && o.status.phase == Created && o.key.kind != CloudServer
        ==> o.status.observedGeneration != o.generation)
    && (m.cond == True ==> m in {CREATED, UPDATED, STILL_PROVISIONING, PROVISIONING_FAILED})
    && (m.cond != Unknown)
    && (m == UPDATED <==> o.status.phase == Updating && m.next == Created)
    && (m.next == Created ==> (m.cond == True <==> o.status.phase != Created))
    && (m.next == Created && o.status.phase == Created ==>
          !AllResolve(env.refs, BlockStorage, o.spec.dataVolumes))
  }

  predicate Interrupted(o: Object, env: Env) {
    TimedOut(o.status, env.now) || ToDelete(o)
  }

  /** The requests a step may send: which ones, in which phase, to which address. */
  predicate CallsOk(o: Object, env: Env, calls: seq<Exchange>) {
    && (Interrupted(o, env) ==> calls == [])
    && (o.status.phase in {Initial, Created, Deleted, Failed} ==> calls == [])
    && (forall x :: x in calls ==> CallOk(o, x.call))
    && (o.status.phase != Updating || o.key.kind != CloudServer ==> |calls| <= 1)
  }

  predicate CallOk(o: Object, call: Call) {
    match call
    case Post(parent, spec, links) =>
      o.status.phase == Creating && spec == o.spec && parent == PathOf(o.key.kind, links, "")
    case Get(path) => o.status.phase == Provisioning && path == Address(o)
    case Put(path, spec, _) => o.status.phase == Updating && path == Address(o) && spec == o.spec
    case AttachDetach(path, _, _) => o.status.phase == Updating && path == Address(o) && o.key.kind == CloudServer
    case Remove(path) => o.status.phase == Deleting && path == Address(o)
  }

  /** The acknowledged create of a step, if any. */
  predicate Creates(x: Exchange) { x.call.Post? && x.Acknowledged() }

  /** The links that make up an address. */
  predicate SameIdentity(a: Links, b: Links) {
    a.projectID == b.projectID && a.vpcID == b.vpcID && a.securityGroupID == b.securityGroupID
  }

  /** How a step may change the status in memory before it calls Next. */
  predicate MemOk(o: Object, mem: Status, m: Move, calls: seq<Exchange>) {
    && mem == o.status.(resourceID := mem.resourceID, links := mem.links, dataVolumeIDs := mem.dataVolumeIDs)
    && (o.status.phase !in {Creating, Updating} ==> mem == o.status)
    && (o.status.phase == Creating ==>
          && mem.dataVolumeIDs == o.status.dataVolumeIDs
          && (m.next in {Provisioning, Created} <==> |calls| == 1 && Creates(calls[0]))
          && (m.next in {Provisioning, Created} ==>
                && mem.resourceID == calls[0].Reply().id
                && mem.links == Recorded(o.key.kind, o.status.links, calls[0].call.links))
          && (m.next !in {Provisioning, Created} ==> mem == o.status))
    && (o.status.phase == Updating ==>
          && mem.resourceID == o.status.resourceID
          && SameIdentity(mem.links, o.status.links)
          && (o.key.kind != CloudServer ==>
                && mem == o.status
                && (m.next == Created <==> |calls| == 1 && calls[0].call.Put? && calls[0].Acknowledged())))
  }

  predicate Sound(o: Object, env: Env, p: Plan) {
    match p
    case Halt(calls, ret) =>
      && CallsOk(o, env, calls) && !Interrupted(o, env)
      && (calls != [] ==> o.status.phase == Deleting && !o.Guarded())
      && ret == DONE
      && (o.status.phase in {Creating, Updating} ==> false)
      && (o.status.phase == Provisioning ==> o.key.kind == Project)
      && (o.status.phase == Deleting ==> !o.Guarded() && |calls| == 1 && calls[0].Acknowledged())
      && (o.status.phase == Created ==> o.status.observedGeneration == o.generation)
    case Release(calls) =>
      && CallsOk(o, env, calls) && !Interrupted(o, env)
      && o.status.phase == Deleting && o.Guarded()
      && |calls| == 1 && calls[0].call.Remove? && calls[0].Acknowledged()
    case Go(guard, mem, m, calls) =>
      && CallsOk(o, env, calls)
      && MoveOk(o, env, m)
      && MemOk(o, mem, m, calls)
      && (Interrupted(o, env) ==> mem == o.status)
      && (guard ==> o.status.phase == Initial && !o.deleting && !o.Guarded())
      && (m.next == Creating && o.status.phase == Initial ==> guard || o.Guarded())
  }

  lemma InitializeSound(o: Object, env: Env)
    requires o.status.phase == Initial && !Interrupted(o, env)
    ensures Sound(o, env, Initialize(o, env))
  {
  }

  lemma CreateSound(o: Object, env: Env)
    requires o.status.phase == Creating && !Interrupted(o, env)
    ensures Sound(o, env, Create(o, env))
  {
  }

  lemma ProvisionSound(o: Object, env: Env)
    requires o.status.phase == Provisioning && !Interrupted(o, env)
    ensures Sound(o, env, Provision(o, env))
  {
  }

  lemma UpdateVolumesSound(o: Object, mem: Status, env: Env, calls: seq<Exchange>)
    requires o.status.phase == Updating && !Interrupted(o, env) && o.key.kind == CloudServer
    requires |calls| <= 1 && CallsOk(o, env, calls)
    requires mem == o.status.(links := mem.links) && SameIdentity(mem.links, o.status.links)
    ensures Sound(o, env, UpdateVolumes(o, mem, env, calls))
  {
  }

  lemma UpdateSound(o: Object, env: Env)
    requires o.status.phase == Updating && !Interrupted(o, env)
    ensures Sound(o, env, Update(o, env))
  {
    if o.key.kind == CloudServer {
      var links := ResolveAttachments(o.spec, env.refs, o.status.links);
      if o.status.observedGeneration == o.generation {
        UpdateVolumesSound(o, o.status, env, []);
      } else if links.Some? {
        var x := Exchange(Put(Address(o), o.spec, links.value), env.answer);
        if x.Acknowledged() {
          UpdateVolumesSound(o, o.status.(links := links.value.(elasticIpID := "")), env, [x]);
        }
      }
    }
  }

  lemma SteadySound(o: Object, env: Env)
    requires o.status.phase == Created && !Interrupted(o, env)
    ensures Sound(o, env, Steady(o, env))
  {
  }

  lemma DeleteSound(o: Object, env: Env)
    requires o.status.phase == Deleting && !Interrupted(o, env)
    ensures Sound(o, env, Delete(o, env))
  {
  }

  /** A step that reads its object and authenticates. */
  predicate Running(o: Object, env: Env) {
    env.readOk && !(o.spec.tenant == "" && env.vaultEnabled) && env.authOk
  }

  lemma DecideSound(o: Object, env: Env)
    ensures if Running(o, env) then Sound(o, env, Decide(o, env)) else Decide(o, env) == Halt([], ERROR)
  {
    if Running(o, env) && !Interrupted(o, env) {
      match o.status.phase
      case Initial => InitializeSound(o, env);
      case Creating => CreateSound(o, env);
      case Provisioning => ProvisionSound(o, env);
      case Updating => UpdateSound(o, env);
      case Created => SteadySound(o, env);
      case Deleting => DeleteSound(o, env);
      case _ =>
    }
  }

  lemma UpdatingServerStep(o: Object, env: Env)
    requires Running(o, env) && !Interrupted(o, env) && o.status.phase == Updating && o.key.kind == CloudServer
    ensures Decide(o, env) == UpdateServer(o, env)
  {
  }
}
