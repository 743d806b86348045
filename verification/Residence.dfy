/** How long an object can stay in one phase: no step falls asleep over unfinished work, the start
    time is the moment the phase was entered, and when nothing is lost and every wake-up comes
    within `delta` the stay is bounded. */
module Residence {
  import opened Api
  import opened Helper
  import opened Engine
  import opened Steps
  import opened Runs
  import opened Failures
  import Volumes
  import Conditions

  predicate Transitional(p: Phase) {
    p in {Creating, Provisioning, Updating, Deleting}
  }

  // ---------- no step falls asleep over unfinished work ----------

  predicate AsksAgain(ret: Return) {
    ret.requeue || ret.after > 0 || ret.failed
  }

  /** There is nothing left to do: the object has failed, or is Created with its generation and
      its volumes settled, or has been released; a Project has nothing to do in Provisioning. */
  predicate Done(o: Object, env: Env) {
    && Running(o, env) && !Interrupted(o, env)
    && match o.status.phase
       case Provisioning => o.key.kind == Project
       case Created =>
         && o.status.observedGeneration == o.generation
         && (o.key.kind == CloudServer ==>
               && AllResolve(env.refs, BlockStorage, o.spec.dataVolumes)
               && Volumes.Elements(LookupAll(env.refs, BlockStorage, o.spec.dataVolumes))
                    == Volumes.Elements(o.status.dataVolumeIDs))
       case Deleting => Classify(DELETE, env.answer).Ok? && (o.Guarded() ==> env.metaLands)
       case Failed | Deleted => true
       case Initial | Creating | Updating => false
  }

  lemma NextAsksAgain(o: Object, mem: Status, m: Move, env: Env, calls: seq<Exchange>)
    ensures AsksAgain(Next(o, mem, m, env, calls).ret)
  {
    hide TimeToNextInterval, Advance;
  }

  lemma PlanHalts(o: Object, env: Env)
    requires Running(o, env) && !Interrupted(o, env)
    ensures Handle(o, env).Go? <==> !Done(o, env)
    ensures Handle(o, env).Halt? ==> Handle(o, env).ret == DONE
  {
    hide Create, Update, PathOf, Classify, FailureMove;
    if o.status.phase == Creating {
      CreateSound(o, env);
    } else if o.status.phase == Updating {
      UpdateSound(o, env);
    } else if o.status.phase == Created && o.key.kind == CloudServer
              && AllResolve(env.refs, BlockStorage, o.spec.dataVolumes) {
      Volumes.DiffReachesDesired(LookupAll(env.refs, BlockStorage, o.spec.dataVolumes), o.status.dataVolumeIDs);
    }
  }

  /** A step ends without an error and without asking to be woken exactly when the object is
      done; in particular no lost read, login or write, and no retry, is left lying. */
  lemma SleepsIffDone(o: Object, env: Env)
    ensures !AsksAgain(Reconcile(o, env).ret) <==> Done(o, env)
  {
    hide Next, Handle, Classify, AllResolve, LookupAll;
    if Running(o, env) && !Interrupted(o, env) {
      PlanHalts(o, env);
    }
    var p := Decide(o, env);
    if p.Go? {
      NextAsksAgain(if p.guard then Guard(o) else o, p.mem, p.move, env, p.calls);
    }
  }

  /** What a step asks for, in nanoseconds: after a landed write 20 seconds, and at once as well
      unless the object failed; after a debounced retry the rest of the interval; a rejected
      write or a step that did not get to run is an error; and nothing when the object is done. */
  lemma ReturnTells(o: Object, env: Env)
    ensures var out := Reconcile(o, env);
            match out.write
            case Landed(m) => out.ret == Return(m.next != Failed, 20_000_000_000, false)
            case Debounced => out.ret == Return(false, out.ret.after, false) && 0 < out.ret.after < 20_000_000_000
            case Rejected(_) => out.ret == Return(false, 0, true)
            case NoWrite => out.ret == Return(false, 0, !Running(o, env))
  {
    hide Decide, TimeToNextInterval, Advance;
    DecideSound(o, env);
  }

  // ---------- a bound on the stay ----------

  /** The last step of a run: when it took place and after how long it asked to be woken. */
  datatype Wake = Wake(at: int, after: int)

  function LastWake(run: seq<Turn>): Option<Wake> {
    if run == [] then None
    else if Latest(run).act.Step? then Some(Wake(Latest(run).act.env.now, Latest(run).out.ret.after))
    else LastWake(Earlier(run))
  }

  /** A moment not before the last step and not after the wake-up it asked for is overdue. */
  predicate NotOverdue(w: Option<Wake>, now: int, delta: nat) {
    w.Some? ==> w.value.at <= now && (w.value.after > 0 ==> now <= w.value.at + w.value.after + delta)
  }

  /** A run in which steps run, writes land, the clock does not go back and wake-ups come. */
  predicate Timely(run: seq<Turn>, delta: nat) {
    run == [] ||
    (&& Timely(Earlier(run), delta)
     && (Latest(run).act.Step? ==>
           var env := Latest(run).act.env;
           && env.metaLands && env.statusLands
           && (Latest(run).pre.Some? ==> Running(Latest(run).pre.value, env))
           && NotOverdue(LastWake(Earlier(run)), env.now, delta)))
  }

  /** The last step took place within the phase's five minutes and asked to be woken. */
  predicate OnSchedule(o: Object, w: Option<Wake>) {
    && (o.status.phaseStartTime.Some? ==> w.Some? && o.status.phaseStartTime.value <= w.value.at)
    && (Transitional(o.status.phase) && o.Guarded() ==>
          && o.status.phaseStartTime.Some? && w.Some?
          && w.value.at <= o.status.phaseStartTime.value + MAX_PHASE_TIMEOUT
          && 0 < w.value.after <= REQUEUE_AFTER)
  }

  lemma NextOnSchedule(o: Object, env: Env, guard: bool, mem: Status, m: Move, calls: seq<Exchange>, w: Option<Wake>)
    requires Consistent(o) && MoveOk(o, env, m) && env.statusLands
    requires mem.phase == o.status.phase && mem.phaseStartTime == o.status.phaseStartTime
    requires guard ==> o.status.phase == Initial
    requires OnSchedule(o, w) && (w.Some? ==> w.value.at <= env.now)
    ensures var out := Next(if guard then Guard(o) else o, mem, m, env, calls);
            out.post.Some? && OnSchedule(out.post.value, Some(Wake(env.now, out.ret.after)))
  {
    hide GoDiv, Conditions.Updated;
  }

  lemma PlanOnSchedule(o: Object, env: Env, p: Plan, w: Option<Wake>)
    requires Consistent(o) && Fits(o, env, p) && Running(o, env)
    requires env.metaLands && env.statusLands
    requires OnSchedule(o, w) && (w.Some? ==> w.value.at <= env.now)
    ensures var out := Perform(o, p, env);
            out.post.Some? ==> OnSchedule(out.post.value, Some(Wake(env.now, out.ret.after)))
  {
    hide Next, PathOf, Edge;
    if p.Go? {
      NextOnSchedule(o, env, p.guard, p.mem, p.move, p.calls, w);
    } else if p.Release? {
      Volumes.WithoutMembers(o.finalizers, [Operator(o.key.kind)]);
    }
  }

  lemma StepOnSchedule(o: Object, env: Env, w: Option<Wake>)
    requires Consistent(o) && Running(o, env)
    requires env.metaLands && env.statusLands
    requires OnSchedule(o, w) && (w.Some? ==> w.value.at <= env.now)
    ensures var out := Reconcile(o, env);
            out.post.Some? ==> OnSchedule(out.post.value, Some(Wake(env.now, out.ret.after)))
  {
    hide Decide;
    DecideSound(o, env);
    PlanOnSchedule(o, env, Decide(o, env), w);
  }

  lemma {:induction false} RunOnSchedule(run: seq<Turn>, delta: nat)
    requires ValidRun(run) && Timely(run, delta) && Final(run).Some?
    ensures OnSchedule(Final(run).value, LastWake(run))
  {
    hide Reconcile;
    EarlierValid(run);
    var earlier, t := Earlier(run), Latest(run);
    if earlier != [] {
      AlwaysConsistent(earlier);
      RunOnSchedule(earlier, delta);
      if t.act.Step? {
        StepOnSchedule(t.pre.value, t.act.env, LastWake(earlier));
      }
    }
  }

  // ---------- the start time is the moment the phase was entered ----------

  /** The clock of the last step that changed the stored phase. */
  function EnteredAt(run: seq<Turn>): int {
    if run == [] then 0
    else
      var t := Latest(run);
      if t.act.Step? && t.pre.Some? && t.out.post.Some?
         && t.pre.value.status.phase != t.out.post.value.status.phase
      then t.act.env.now
      else EnteredAt(Earlier(run))
  }

  lemma PlanKeepsStart(o: Object, env: Env, p: Plan)
    requires Consistent(o) && Fits(o, env, p)
    ensures var post := Perform(o, p, env).post;
            post.Some? && post.value.status.phase != Initial ==>
              post.value.status.phaseStartTime ==
                if post.value.status.phase == o.status.phase then o.status.phaseStartTime else Some(env.now)
  {
    hide TimeToNextInterval, PathOf, CallsOk, Conditions.Updated;
  }

  lemma StepKeepsStart(o: Object, env: Env)
    requires Consistent(o)
    ensures var post := Reconcile(o, env).post;
            post.Some? && post.value.status.phase != Initial ==>
              post.value.status.phaseStartTime ==
                if post.value.status.phase == o.status.phase then o.status.phaseStartTime else Some(env.now)
  {
    hide Decide;
    DecideSound(o, env);
    PlanKeepsStart(o, env, Decide(o, env));
  }

  /** In every run, whatever is retried, debounced, edited or lost: the stored start time is the
      clock of the step that entered the phase the object is in. */
  lemma {:induction false} StartIsEntry(run: seq<Turn>)
    requires ValidRun(run) && Final(run).Some? && Final(run).value.status.phase != Initial
    ensures Final(run).value.status.phaseStartTime == Some(EnteredAt(run))
  {
    hide Reconcile;
    EarlierValid(run);
    var earlier, t := Earlier(run), Latest(run);
    AlwaysConsistent(earlier);
    if t.act.Step? {
      StepKeepsStart(t.pre.value, t.act.env);
    }
    if earlier != [] && Final(earlier).value.status.phase == Final(run).value.status.phase {
      StartIsEntry(earlier);
    }
  }

  /** In every run a landed write leaves the object in Failed exactly when it is in one of the four
      phases and entered it more than five minutes, in nanoseconds, before, or for a fatal answer
      or a failed remote resource. */
  lemma FailsOnTime(run: seq<Turn>)
    requires ValidRun(run) && run != [] && Latest(run).act.Step? && Latest(run).out.write.Landed?
    ensures Latest(run).pre.Some? && Final(run).Some?
    ensures var t := Latest(run);
            Final(run).value.status.phase == Failed <==>
              || (&& t.pre.value.status.phase in {Creating, Provisioning, Updating, Deleting}
                  && t.act.env.now - EnteredAt(Earlier(run)) > 300_000_000_000)
              || FatalIn(t.out.calls) || RemoteFailureIn(t.out.calls)
  {
    hide Reconcile, EnteredAt, FatalIn, RemoteFailureIn;
    EarlierValid(run);
    var t := Latest(run);
    ExactCausesOfFailed(t.pre.value, t.act.env);
    if t.pre.value.status.phase != Initial {
      StartIsEntry(Earlier(run));
    }
  }

  /** At any moment of a timely run, an object that carries the operator's finalizer entered its
      transitional phase at most five minutes, one requeue interval and the delay of one wake-up
      ago. */
  lemma BoundedResidence(run: seq<Turn>, delta: nat, now: int)
    requires ValidRun(run) && Timely(run, delta) && Final(run).Some?
    requires NotOverdue(LastWake(run), now, delta)
    requires Transitional(Final(run).value.status.phase) && Final(run).value.Guarded()
    ensures now <= EnteredAt(run) + 300 * SECOND + 20 * SECOND + delta
  {
    hide Reconcile, LastWake, Timely, EnteredAt;
    RunOnSchedule(run, delta);
    StartIsEntry(run);
  }
}
