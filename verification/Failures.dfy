/** Exactly when an object ends in phase Failed, from the raw answers of the remote cloud. */
module Failures {
  import opened Api
  import opened Helper
  import opened Engine
  import opened Steps

  /** The answers that end a resource's life in phase Failed. */
  predicate Fatal(m: Method, a: Answer) {
    && a.Response?
    && 400 <= a.code < 500 && a.code != 400 && a.code != 404
    && (a.body.Empty? || a.body.Parsed?)
    && !(m == DELETE && a.code == 405)
  }

  predicate FatalIn(calls: seq<Exchange>) {
    exists x :: x in calls && Fatal(x.call.Method(), x.answer)
  }

  predicate ErrorIn(calls: seq<Exchange>) {
    exists x :: x in calls && !x.Acknowledged()
  }

  /** A status request that was answered with a failed remote state. */
  predicate RemoteFailureIn(calls: seq<Exchange>) {
    exists x :: x in calls && x.call.Get? && x.Acknowledged()
                && (x.Reply().state.RemoteFailed? || x.Reply().state.RemoteError?)
  }

  /** A report of a failure that leaves the phase and asks to be woken. */
  predicate IsRetry(m: Move) {
    m.cond == False && m.requeue && m.reason in {ReconcileError, ResourceNotReady, ServerError}
  }

  /** A step is held up by something other than an answer: a reference it needs does not
      resolve, or its finalizer write is rejected. */
  predicate Blocked(o: Object, env: Env) {
    && !Interrupted(o, env)
    && match o.status.phase
       case Initial => !o.Guarded() && !env.metaLands
       case Creating => ResolveForCreate(o.key.kind, o.spec, env.refs).None?
       case Updating => o.key.kind == CloudServer && PassBlocked(o, env)
       case Created => o.key.kind == CloudServer && !AllResolve(env.refs, BlockStorage, o.spec.dataVolumes)
       case Deleting => Classify(DELETE, env.answer).Ok? && o.Guarded() && !env.metaLands
       case _ => false
  }

  /** The volumes are looked up once the property update, if one is due, has been acknowledged. */
  predicate PassBlocked(o: Object, env: Env) {
    if o.status.observedGeneration != o.generation && ResolveAttachments(o.spec, env.refs, o.status.links).None?
    then true
    else (o.status.observedGeneration != o.generation ==> Classify(PUT, env.answer).Ok?)
         && !AllResolve(env.refs, BlockStorage, o.spec.dataVolumes)
  }

  /** A failed exchange sends the object to Failed exactly when the answer is fatal. */
  lemma FatalAnswers(m: Method, a: Answer, phase: Phase)
    requires Classify(m, a).Err? && phase != Failed
    ensures FailureMove(phase, Classify(m, a).failure).next == Failed <==> Fatal(m, a)
    ensures Fatal(m, a) <==>
              && a.Response? && (a.body.Empty? || a.body.Parsed?)
              && 400 <= a.code < 500 && a.code !in {400, 404} && !(m == DELETE && a.code == 405)
    ensures var move := FailureMove(phase, Classify(m, a).failure);
            (IsRetry(move) <==> !Fatal(m, a)) && (IsRetry(move) ==> move.next == phase)
    ensures var move := FailureMove(phase, Classify(m, a).failure);
            var read := a.Response? && (a.body.Empty? || a.body.Parsed?);
            && (move.reason == ClientError <==> Fatal(m, a))
            && (move.reason == ResourceNotReady <==> read && a.code in {400, 404})
            && (move.reason == ServerError <==> read && 500 <= a.code < 600)
  {
  }

  lemma AcknowledgedIsNotFatal(m: Method, a: Answer)
    requires Classify(m, a).Ok?
    ensures !Fatal(m, a)
  {
  }

  /** The plan's verdict, from the exchanges it made. */
  predicate Explained(o: Object, env: Env, p: Plan) {
    p.Go? ==>
      && (p.move.next == Failed <==>
            TimedOut(o.status, env.now) || FatalIn(p.calls) || RemoteFailureIn(p.calls))
      && (IsRetry(p.move) <==> (ErrorIn(p.calls) && !FatalIn(p.calls)) || Blocked(o, env))
      && (IsRetry(p.move) ==> p.move.next == o.status.phase)
  }

  lemma OneCall(calls: seq<Exchange>)
    requires |calls| <= 1
    ensures FatalIn(calls) <==> |calls| == 1 && Fatal(calls[0].call.Method(), calls[0].answer)
    ensures ErrorIn(calls) <==> |calls| == 1 && !calls[0].Acknowledged()
    ensures RemoteFailureIn(calls) <==>
              && |calls| == 1 && calls[0].call.Get? && calls[0].Acknowledged()
              && (calls[0].Reply().state.RemoteFailed? || calls[0].Reply().state.RemoteError?)
  {
    if |calls| == 1 {
      assert calls[0] in calls;
    }
  }

  lemma CreateExplained(o: Object, env: Env)
    requires o.status.phase == Creating && !Interrupted(o, env)
    ensures Explained(o, env, Create(o, env))
  {
    hide ResolveForCreate, PathOf, Recorded, FatalIn, ErrorIn, RemoteFailureIn;
    OneCall(Create(o, env).calls);
  }

  lemma ProvisionExplained(o: Object, env: Env)
    requires o.status.phase == Provisioning && !Interrupted(o, env)
    ensures Explained(o, env, Provision(o, env))
  {
    hide PathOf, FatalIn, ErrorIn, RemoteFailureIn;
    OneCall(Provision(o, env).calls);
  }

  lemma UpdateVolumesExplained(o: Object, mem: Status, env: Env, calls: seq<Exchange>)
    requires mem.phase == Updating
    requires calls == [] || (|calls| == 1 && calls[0].call.Put? && calls[0].Acknowledged())
    ensures var p := UpdateVolumes(o, mem, env, calls);
            && p.Go? && !RemoteFailureIn(p.calls)
            && (p.move.next == Failed <==> FatalIn(p.calls))
            && (IsRetry(p.move) <==>
                  (ErrorIn(p.calls) && !FatalIn(p.calls)) || !AllResolve(env.refs, BlockStorage, o.spec.dataVolumes))
            && (IsRetry(p.move) ==> p.move.next == Updating)
  {
    hide Classify, Volumes.Without, PathOf, Fatal;
    var p := UpdateVolumes(o, mem, env, calls);
    if calls != [] {
      AcknowledgedIsNotFatal(PUT, calls[0].answer);
    }
    if |p.calls| > |calls| {
      var x := p.calls[|calls|];
      assert x in p.calls && p.calls == calls + [x] && x.call.AttachDetach?;
      if x.Acknowledged() { AcknowledgedIsNotFatal(POST, x.answer); } else { FatalAnswers(POST, x.answer, Updating); }
    } else {
      assert p.calls == calls;
    }
  }

  lemma UpdateExplained(o: Object, env: Env)
    requires o.status.phase == Updating && !Interrupted(o, env)
    ensures Explained(o, env, Update(o, env))
  {
    hide FatalIn, ErrorIn, RemoteFailureIn, Classify, Fatal, PathOf, ResolveAttachments, UpdateVolumes, FailureMove;
    var links := ResolveAttachments(o.spec, env.refs, o.status.links);
    OneCall([]);
    RetryOfPlainError(Updating);
    if o.key.kind == CloudServer && o.status.observedGeneration == o.generation {
      UpdateVolumesExplained(o, o.status, env, []);
    } else if o.key.kind != CloudServer || links.Some? {
      var x := Exchange(Put(Address(o), o.spec, if o.key.kind == CloudServer then links.value else o.status.links),
                        env.answer);
      OneCall([x]);
      if x.Acknowledged() {
        AcknowledgedIsNotFatal(PUT, x.answer);
        if o.key.kind == CloudServer {
          UpdateVolumesExplained(o, o.status.(links := links.value.(elasticIpID := "")), env, [x]);
        }
      } else {
        FatalAnswers(PUT, x.answer, Updating);
      }
    }
  }

  lemma RetryOfPlainError(phase: Phase)
    requires phase != Failed
    ensures IsRetry(FailureMove(phase, PlainError)) && FailureMove(phase, PlainError).next == phase
  {
  }

  lemma SteadyExplained(o: Object, env: Env)
    requires o.status.phase == Created && !Interrupted(o, env)
    ensures Explained(o, env, Steady(o, env))
  {
    hide FatalIn, ErrorIn, RemoteFailureIn, Volumes.Without;
    OneCall([]);
  }

  lemma DeleteExplained(o: Object, env: Env)
    requires o.status.phase == Deleting && !Interrupted(o, env)
    ensures Explained(o, env, Delete(o, env))
  {
    hide PathOf, FatalIn, ErrorIn, RemoteFailureIn;
    OneCall(Delete(o, env).calls);
  }

  lemma DecideExplained(o: Object, env: Env)
    ensures Explained(o, env, Decide(o, env))
  {
    hide Create, Provision, Update, Delete, Steady;
    if Running(o, env) && !Interrupted(o, env) {
      match o.status.phase
      case Creating => CreateExplained(o, env);
      case Provisioning => ProvisionExplained(o, env);
      case Updating => UpdateExplained(o, env);
      case Created => SteadyExplained(o, env);
      case Deleting => DeleteExplained(o, env);
      case _ =>
    }
  }

  /** A landed write puts an object in Failed exactly when its phase has run for more than
      five minutes, or an answer was fatal, or the remote resource reported failure.  It reports
      a retry, which leaves the phase and asks for a wake-up, exactly when an exchange failed
      and none was fatal, or the step was held up. */
  lemma ExactCausesOfFailed(o: Object, env: Env)
    ensures var out := Reconcile(o, env);
            out.write.Landed? ==>
              && out.post.Some?
              && (out.post.value.status.phase == Failed <==>
                    || (&& o.status.phase in {Creating, Provisioning, Updating, Deleting}
                        && o.status.phaseStartTime.Some?
                        && env.now - o.status.phaseStartTime.value > 300_000_000_000)
                    || FatalIn(out.calls) || RemoteFailureIn(out.calls))
              && (IsRetry(out.write.move) <==> (ErrorIn(out.calls) && !FatalIn(out.calls)) || Blocked(o, env))
              && (IsRetry(out.write.move) ==> out.post.value.status.phase == o.status.phase && out.ret.requeue)
  {
    hide Decide, Blocked;
    DecideExplained(o, env);
  }
}
