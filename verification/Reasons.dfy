/** What the reason of the Synchronized condition tells about the step that wrote it. */
module Reasons {
  import opened Api
  import opened Helper
  import opened Engine
  import opened Steps
  import opened Failures
  import opened Volumes

  /** A failed exchange with a readable answer of one of the codes. */
  predicate AnsweredIn(calls: seq<Exchange>, low: int, high: int) {
    exists x :: x in calls && !x.Acknowledged() && x.answer.Response?
                && (x.answer.body.Empty? || x.answer.body.Parsed?) && low <= x.answer.code <= high
  }

  predicate NotReadyIn(calls: seq<Exchange>) { AnsweredIn(calls, 400, 400) || AnsweredIn(calls, 404, 404) }

  predicate ServerFailureIn(calls: seq<Exchange>) { AnsweredIn(calls, 500, 599) }

  /** The volumes the spec asks for, when they resolve, are not the recorded ones. */
  predicate VolumesDiffer(o: Object, env: Env) {
    && o.key.kind == CloudServer && AllResolve(env.refs, BlockStorage, o.spec.dataVolumes)
    && Elements(LookupAll(env.refs, BlockStorage, o.spec.dataVolumes)) != Elements(o.status.dataVolumeIDs)
  }

  /** The cause each reason stands for. */
  predicate Cause(o: Object, env: Env, calls: seq<Exchange>, m: Move) {
    match m.reason
    case ReconciliationTimeout =>
      && o.status.phase in {Creating, Provisioning, Updating, Deleting} && m.next == Failed
      && o.status.phaseStartTime.Some? && env.now - o.status.phaseStartTime.value > 300_000_000_000
    case ToBeDeleted => o.deleting && o.status.phase !in {Deleting, Failed} && m.next == Deleting
    case Initialized => o.status.phase == Initial && m.next == Creating
    case ProvisioningReason => o.status.phase in {Creating, Provisioning} && m.next == Provisioning && !ErrorIn(calls)
    case CreatedReason => o.status.phase in {Creating, Provisioning} && m.next == Created
    case UpdatedReason => o.status.phase == Updating && m.next == Created
    case ProvisioningFailed => m.next == Failed && RemoteFailureIn(calls)
    case UpdatingReason => o.status.phase == Created && m.next == Updating && !VolumesDiffer(o, env)
    case UpdatingDataVolumes => o.status.phase == Created && m.next == Updating && VolumesDiffer(o, env)
    case ClientError => m.next == Failed && FatalIn(calls)
    case ResourceNotReady => m.next == o.status.phase && NotReadyIn(calls)
    case ServerError => m.next == o.status.phase && ServerFailureIn(calls)
    case ReconcileError =>
      m.next == o.status.phase && !NotReadyIn(calls) && !ServerFailureIn(calls) && (ErrorIn(calls) || Blocked(o, env))
    case OtherReason(_) => false
  }

  predicate Told(o: Object, env: Env, p: Plan) {
    p.Go? ==> Cause(o, env, p.calls, p.move)
  }

  lemma FailureTold(calls: seq<Exchange>, x: Exchange, phase: Phase)
    requires !x.Acknowledged() && x in calls && phase != Failed
    requires forall y :: y in calls && y != x ==> y.Acknowledged()
    ensures var reason := FailureMove(phase, x.Reply().failure).reason;
            && (reason == ClientError <==> FatalIn(calls))
            && (reason == ResourceNotReady <==> NotReadyIn(calls))
            && (reason == ServerError <==> ServerFailureIn(calls))
            && reason in {ClientError, ResourceNotReady, ServerError, ReconcileError}
  {
    FatalAnswers(x.call.Method(), x.answer, phase);
    forall y | y in calls && y.Acknowledged() ensures !Fatal(y.call.Method(), y.answer) {
      AcknowledgedIsNotFatal(y.call.Method(), y.answer);
    }
    hide Classify, Fatal;
    assert FatalIn(calls) <==> Fatal(x.call.Method(), x.answer);
    var read := x.answer.Response? && (x.answer.body.Empty? || x.answer.body.Parsed?);
    assert forall low, high :: AnsweredIn(calls, low, high) <==> read && low <= x.answer.code <= high;
  }

  lemma NothingFailed(calls: seq<Exchange>)
    requires forall x :: x in calls ==> x.Acknowledged()
    ensures !NotReadyIn(calls) && !ServerFailureIn(calls) && !ErrorIn(calls)
  {
  }

  lemma FailTold(o: Object, env: Env, mem: Status, x: Exchange, calls: seq<Exchange>)
    requires !x.Acknowledged() && x in calls && o.status.phase != Failed && mem.phase == o.status.phase
    requires forall y :: y in calls && y != x ==> y.Acknowledged()
    ensures Told(o, env, Fail(mem, x.Reply().failure, calls))
  {
    hide FatalIn, NotReadyIn, ServerFailureIn, Fatal;
    FailureTold(calls, x, mem.phase);
    FatalAnswers(x.call.Method(), x.answer, mem.phase);
    hide Classify, FailureMove;
    assert ErrorIn(calls);
  }

  lemma BlockedTold(o: Object, env: Env, mem: Status, calls: seq<Exchange>)
    requires forall x :: x in calls ==> x.Acknowledged()
    requires Blocked(o, env) && mem.phase == o.status.phase
    ensures Told(o, env, Fail(mem, PlainError, calls))
  {
    hide Blocked, Classify;
    NothingFailed(calls);
  }

  lemma CreateTold(o: Object, env: Env)
    requires o.status.phase == Creating && !Interrupted(o, env)
    ensures Told(o, env, Create(o, env))
  {
    hide ResolveForCreate, PathOf, Recorded, Classify, FailureMove, NotReadyIn, ServerFailureIn, FatalIn;
    var links := ResolveForCreate(o.key.kind, o.spec, env.refs);
    if links.None? {
      BlockedTold(o, env, o.status, []);
    } else {
      var x := Exchange(Post(PathOf(o.key.kind, links.value, ""), o.spec, links.value), env.answer);
      if x.Acknowledged() { NothingFailed([x]); } else { FailTold(o, env, o.status, x, [x]); }
    }
  }

  lemma ProvisionTold(o: Object, env: Env)
    requires o.status.phase == Provisioning
    ensures Told(o, env, Provision(o, env))
  {
    hide PathOf, Classify, FailureMove, NotReadyIn, ServerFailureIn, FatalIn, ErrorIn, RemoteFailureIn;
    var x := Exchange(Get(Address(o)), env.answer);
    OneCall([x]);
    if x.Acknowledged() { NothingFailed([x]); } else { FailTold(o, env, o.status, x, [x]); }
  }

  lemma UpdateVolumesTold(o: Object, mem: Status, env: Env, calls: seq<Exchange>)
    requires o.status.phase == Updating && mem.phase == Updating
    requires forall x :: x in calls ==> x.Acknowledged()
    requires !AllResolve(env.refs, BlockStorage, o.spec.dataVolumes) ==> Blocked(o, env)
    ensures Told(o, env, UpdateVolumes(o, mem, env, calls))
  {
    hide PathOf, Classify, FailureMove, Without, Blocked, NotReadyIn, ServerFailureIn, FatalIn, ErrorIn;
    var p := UpdateVolumes(o, mem, env, calls);
    if !AllResolve(env.refs, BlockStorage, o.spec.dataVolumes) {
      BlockedTold(o, env, mem, calls);
    } else if |p.calls| > |calls| {
      var x := p.calls[|calls|];
      assert p.calls == calls + [x] && x in p.calls;
      if !x.Acknowledged() {
        FailTold(o, env, mem, x, p.calls);
      }
    }
  }

  lemma UpdateTold(o: Object, env: Env)
    requires o.status.phase == Updating && !Interrupted(o, env)
    ensures Told(o, env, Update(o, env))
  {
    hide PathOf, Classify, FailureMove, ResolveAttachments, UpdateVolumes;
    hide NotReadyIn, ServerFailureIn, FatalIn, ErrorIn;
    var links := ResolveAttachments(o.spec, env.refs, o.status.links);
    if o.key.kind == CloudServer && o.status.observedGeneration == o.generation {
      UpdateVolumesTold(o, o.status, env, []);
    } else if o.key.kind == CloudServer && links.None? {
      BlockedTold(o, env, o.status, []);
    } else {
      var x := Exchange(Put(Address(o), o.spec, if o.key.kind == CloudServer then links.value else o.status.links),
                        env.answer);
      if !x.Acknowledged() {
        FailTold(o, env, o.status, x, [x]);
      } else if o.key.kind == CloudServer {
        UpdateVolumesTold(o, o.status.(links := links.value.(elasticIpID := "")), env, [x]);
      }
    }
  }

  lemma SteadyTold(o: Object, env: Env)
    requires o.status.phase == Created && !Interrupted(o, env)
    ensures Told(o, env, Steady(o, env))
  {
    hide FailureMove, Elements, NotReadyIn, ServerFailureIn, FatalIn, ErrorIn;
    if o.key.kind == CloudServer {
      if AllResolve(env.refs, BlockStorage, o.spec.dataVolumes) {
        DiffReachesDesired(LookupAll(env.refs, BlockStorage, o.spec.dataVolumes), o.status.dataVolumeIDs);
      } else {
        BlockedTold(o, env, o.status, []);
      }
    }
  }

  lemma DeleteTold(o: Object, env: Env)
    requires o.status.phase == Deleting && !Interrupted(o, env)
    ensures Told(o, env, Delete(o, env))
  {
    hide PathOf, Classify, FailureMove, NotReadyIn, ServerFailureIn, FatalIn, ErrorIn;
    var x := Exchange(Remove(Address(o)), env.answer);
    if !x.Acknowledged() {
      FailTold(o, env, o.status, x, [x]);
    } else if o.Guarded() && !env.metaLands {
      BlockedTold(o, env, o.status, [x]);
    }
  }

  lemma DecideTold(o: Object, env: Env)
    ensures Told(o, env, Decide(o, env))
  {
    hide Create, Provision, Update, Delete, Steady, Cause;
    if Running(o, env) && !Interrupted(o, env) {
      match o.status.phase
      case Initial => InitializeTold(o, env);
      case Creating => CreateTold(o, env);
      case Provisioning => ProvisionTold(o, env);
      case Updating => UpdateTold(o, env);
      case Created => SteadyTold(o, env);
      case Deleting => DeleteTold(o, env);
      case _ =>
    } else {
      InterruptTold(o, env);
    }
  }

  lemma InitializeTold(o: Object, env: Env)
    requires o.status.phase == Initial && !Interrupted(o, env)
    ensures Told(o, env, Initialize(o, env))
  {
    hide NotReadyIn, ServerFailureIn, FatalIn, ErrorIn;
    if !o.Guarded() && !env.metaLands {
      BlockedTold(o, env, o.status, []);
    }
  }

  lemma InterruptTold(o: Object, env: Env)
    requires !Running(o, env) || Interrupted(o, env)
    ensures Told(o, env, Decide(o, env))
  {
    hide Handle;
  }

  /** The reason that a landed write leaves is true: the step had the cause it stands for. */
  lemma ReasonTellsCause(o: Object, env: Env)
    ensures var out := Reconcile(o, env);
            out.write.Landed? ==> Cause(o, env, out.calls, out.write.move)
  {
    hide Decide, Cause;
    DecideTold(o, env);
  }
}
