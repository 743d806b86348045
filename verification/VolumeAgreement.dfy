/** The data volumes of a CloudServer: what its status records against what is attached. */
module VolumeAgreement {
  import opened Api
  import opened Helper
  import opened Engine
  import opened Steps
  import opened Runs
  import opened Volumes

  /** The remote cloud applies an attach/detach request it acknowledges, and no other. */
  function AttachedAfter(attached: set<string>, calls: seq<Exchange>): set<string> {
    if calls == [] then attached
    else
      var x := calls[|calls|-1];
      var before := AttachedAfter(attached, calls[..|calls|-1]);
      if x.call.AttachDetach? && x.Acknowledged() then Volumes.Apply(before, x.call.toAttach, x.call.toDetach)
      else before
  }

  /** The volumes attached to the remote server of a run; a create attaches none. */
  function Attached(run: seq<Turn>): set<string> {
    if run == [] then {} else AttachedAfter(Attached(Earlier(run)), Latest(run).out.calls)
  }

  predicate AcknowledgesVolumes(calls: seq<Exchange>) {
    exists x :: x in calls && x.call.AttachDetach? && x.Acknowledged()
  }

  /** No status write that follows an acknowledged attach/detach is lost. */
  predicate VolumeWritesLand(run: seq<Turn>) {
    forall i :: 0 <= i < |run| && AcknowledgesVolumes(run[i].out.calls) ==> !run[i].out.write.Rejected?
  }

  /** The data volume references of `spec` resolve, in the same order, to `ids`. */
  predicate VolumesAre(spec: Spec, refs: map<Key, string>, ids: seq<string>) {
    AllResolve(refs, BlockStorage, spec.dataVolumes) && ids == LookupAll(refs, BlockStorage, spec.dataVolumes)
  }

  /** How a plan touches the recorded volumes: it records the desired list together with an
      acknowledged diff against the recorded one, or it leaves both alone; and a pass that
      ends well has recorded what the references resolve to. */
  predicate Moved(o: Object, env: Env, p: Plan, attached: set<string>) {
    match p
    case Go(_, mem, m, calls) =>
      && (m == UPDATED && o.key.kind == CloudServer ==>
            && AllResolve(env.refs, BlockStorage, o.spec.dataVolumes)
            && Elements(LookupAll(env.refs, BlockStorage, o.spec.dataVolumes)) == Elements(mem.dataVolumeIDs))
      && if AcknowledgesVolumes(calls) then
           && o.status.phase == Updating && m == UPDATED
           && VolumesAre(o.spec, env.refs, mem.dataVolumeIDs)
           && Elements(mem.dataVolumeIDs) != Elements(o.status.dataVolumeIDs)
           && AttachedAfter(attached, calls) ==
                Volumes.Apply(attached, Without(mem.dataVolumeIDs, o.status.dataVolumeIDs),
                                        Without(o.status.dataVolumeIDs, mem.dataVolumeIDs))
         else mem.dataVolumeIDs == o.status.dataVolumeIDs && AttachedAfter(attached, calls) == attached
    case Halt(calls, _) => !AcknowledgesVolumes(calls) && AttachedAfter(attached, calls) == attached
    case Release(calls) => !AcknowledgesVolumes(calls) && AttachedAfter(attached, calls) == attached
  }

  lemma QuietCalls(calls: seq<Exchange>, attached: set<string>)
    requires forall x :: x in calls ==> !(x.call.AttachDetach? && x.Acknowledged())
    ensures AttachedAfter(attached, calls) == attached && !AcknowledgesVolumes(calls)
  {
    if calls != [] {
      assert calls[|calls|-1] in calls;
      QuietCalls(calls[..|calls|-1], attached);
    }
  }

  lemma LastCallCounts(calls: seq<Exchange>, x: Exchange, attached: set<string>)
    requires forall y :: y in calls ==> !y.call.AttachDetach?
    requires x.call.AttachDetach?
    ensures AttachedAfter(attached, calls + [x]) ==
              if x.Acknowledged() then Volumes.Apply(attached, x.call.toAttach, x.call.toDetach) else attached
    ensures AcknowledgesVolumes(calls + [x]) <==> x.Acknowledged()
  {
    hide Classify;
    assert (calls + [x])[..|calls|] == calls;
    QuietCalls(calls, attached);
    if x.Acknowledged() {
      assert x in calls + [x];
    } else {
      QuietCalls(calls + [x], attached);
    }
  }

  lemma UpdateVolumesMoved(o: Object, mem: Status, env: Env, calls: seq<Exchange>, attached: set<string>)
    requires o.status.phase == Updating && mem.dataVolumeIDs == o.status.dataVolumeIDs
    requires forall x :: x in calls ==> !x.call.AttachDetach?
    ensures Moved(o, env, UpdateVolumes(o, mem, env, calls), attached)
  {
    hide AttachedAfter, AcknowledgesVolumes, Volumes.Apply, Address, FailureMove, Classify, Without, Elements;
    QuietCalls(calls, attached);
    if AllResolve(env.refs, BlockStorage, o.spec.dataVolumes) {
      var desired := LookupAll(env.refs, BlockStorage, o.spec.dataVolumes);
      var toAttach, toDetach := Without(desired, mem.dataVolumeIDs), Without(mem.dataVolumeIDs, desired);
      LastCallCounts(calls, Exchange(AttachDetach(Address(o), toAttach, toDetach), env.volumeAnswer), attached);
      DiffReachesDesired(desired, mem.dataVolumeIDs);
    }
    RetriesAreNotUpdated();
  }

  lemma RetriesAreNotUpdated()
    ensures forall phase, f :: FailureMove(phase, f) != UPDATED
  {
  }

  lemma DecideMoved(o: Object, env: Env, attached: set<string>)
    ensures Moved(o, env, Decide(o, env), attached)
  {
    if o.key.kind == CloudServer && o.status.phase == Updating && Running(o, env) && !Interrupted(o, env) {
      hide Decide;
      UpdateServerMoved(o, env, attached);
      UpdatingServerStep(o, env);
    } else {
      hide Decide;
      DecideSound(o, env);
      QuietCalls(Decide(o, env).calls, attached);
    }
  }

  lemma UpdateServerMoved(o: Object, env: Env, attached: set<string>)
    requires o.status.phase == Updating
    ensures Moved(o, env, UpdateServer(o, env), attached)
  {
    hide UpdateVolumes;
    RetriesAreNotUpdated();
    if o.status.observedGeneration == o.generation {
      UpdateVolumesMoved(o, o.status, env, [], attached);
    } else {
      hide FailureMove;
      var links := ResolveAttachments(o.spec, env.refs, o.status.links);
      if links.Some? {
        var x := Exchange(Put(Address(o), o.spec, links.value), env.answer);
        if x.Acknowledged() {
          UpdateVolumesMoved(o, o.status.(links := links.value.(elasticIpID := "")), env, [x], attached);
        } else {
          QuietCalls([x], attached);
        }
      } else {
        QuietCalls([], attached);
      }
    }
  }

  /** One step: agreement is kept exactly unless the write that records an acknowledged diff
      is lost. */
  lemma StepKeepsAgreement(o: Object, env: Env, attached: set<string>)
    requires attached == Elements(o.status.dataVolumeIDs)
    ensures var out := Reconcile(o, env);
            out.post.Some? ==>
              (AttachedAfter(attached, out.calls) == Elements(out.post.value.status.dataVolumeIDs) <==>
                 !(AcknowledgesVolumes(out.calls) && out.write.Rejected?))
  {
    hide Decide, Elements, Without, Volumes.Apply, AttachedAfter, AcknowledgesVolumes, TimeToNextInterval, PathOf;
    DecideSound(o, env);
    DecideMoved(o, env, attached);
    var p := Decide(o, env);
    if p.Go? {
      DiffReachesDesired(p.mem.dataVolumeIDs, o.status.dataVolumeIDs);
    }
  }

  /** In every run in which those writes land, the volumes on record are, at all times, the
      volumes attached remotely. */
  lemma {:induction false} RecordedIsAttached(run: seq<Turn>)
    requires ValidRun(run) && VolumeWritesLand(run) && Final(run).Some?
    ensures Elements(Final(run).value.status.dataVolumeIDs) == Attached(run)
  {
    hide Reconcile;
    EarlierValid(run);
    var earlier, t := Earlier(run), Latest(run);
    if earlier == [] {
      assert AttachedAfter({}, []) == {};
    } else {
      assert VolumeWritesLand(earlier) by {
        forall i | 0 <= i < |earlier| && AcknowledgesVolumes(earlier[i].out.calls)
          ensures !earlier[i].out.write.Rejected?
        {
          assert earlier[i] == run[i];
        }
      }
      RecordedIsAttached(earlier);
      if t.act.Step? {
        assert t == run[|run|-1];
        StepKeepsAgreement(t.pre.value, t.act.env, Attached(earlier));
      }
    }
  }

  /** After a lost write the remote set is off the record.  A later pass that lands, with or
      without a request, ends with the recorded list attached if and only if every surplus
      volume was on the stale record and no volume that is both recorded and desired is
      missing remotely. */
  lemma PassAfterLostWrite(o: Object, env: Env, attached: set<string>)
    requires Reconcile(o, env).write == Landed(UPDATED) && o.key.kind == CloudServer
    ensures var out := Reconcile(o, env);
            && out.post.Some?
            && var desired := Elements(out.post.value.status.dataVolumeIDs);
               var recorded := Elements(o.status.dataVolumeIDs);
               AttachedAfter(attached, out.calls) == desired <==>
                 attached - desired <= recorded && desired * recorded <= attached
  {
    hide Decide;
    DecideMoved(o, env, attached);
    var p := Decide(o, env);
    DiffAgainstStaleRecord(p.mem.dataVolumeIDs, o.status.dataVolumeIDs, attached);
  }

  /** The volumes attached after several steps from the same stored object. */
  function AttachedAfterAll(o: Object, envs: seq<Env>, attached: set<string>): set<string> {
    if envs == [] then attached
    else AttachedAfter(AttachedAfterAll(o, envs[..|envs|-1], attached), Reconcile(o, envs[|envs|-1]).calls)
  }

  /** However many of these steps had their diff applied, the remote set is the recorded one
      or the desired one. */
  lemma {:induction false} LostPasses(o: Object, envs: seq<Env>, ids: seq<string>)
    requires forall i :: 0 <= i < |envs| && AllResolve(envs[i].refs, BlockStorage, o.spec.dataVolumes) ==>
               VolumesAre(o.spec, envs[i].refs, ids)
    ensures AttachedAfterAll(o, envs, Elements(o.status.dataVolumeIDs))
              in {Elements(o.status.dataVolumeIDs), Elements(ids)}
  {
    hide Decide;
    if envs != [] {
      var n := |envs| - 1;
      LostPasses(o, envs[..n], ids);
      var before := AttachedAfterAll(o, envs[..n], Elements(o.status.dataVolumeIDs));
      DecideMoved(o, envs[n], before);
      DiffReachesDesired(ids, o.status.dataVolumeIDs);
      DiffAgainstStaleRecord(ids, o.status.dataVolumeIDs, before);
    }
  }

  /** Sending a lost diff again is harmless: while the references, when they resolve, resolve to
      the same volumes, any number of passes whose writes are lost, each applied remotely or not, followed by one
      that lands, leaves exactly those volumes attached and on record. */
  lemma ResendIsIdempotent(o: Object, lost: seq<Env>, env: Env, ids: seq<string>)
    requires o.key.kind == CloudServer && VolumesAre(o.spec, env.refs, ids)
    requires forall i :: 0 <= i < |lost| ==> Reconcile(o, lost[i]).post == Some(o)
    requires forall i :: 0 <= i < |lost| && AllResolve(lost[i].refs, BlockStorage, o.spec.dataVolumes) ==>
               VolumesAre(o.spec, lost[i].refs, ids)
    requires Reconcile(o, env).write == Landed(UPDATED)
    ensures var out := Reconcile(o, env);
            && out.post.Some?
            && Elements(out.post.value.status.dataVolumeIDs) == Elements(ids)
            && AttachedAfter(AttachedAfterAll(o, lost, Elements(o.status.dataVolumeIDs)), out.calls) == Elements(ids)
  {
    hide Decide;
    LostPasses(o, lost, ids);
    var before := AttachedAfterAll(o, lost, Elements(o.status.dataVolumeIDs));
    DecideMoved(o, env, before);
    PassAfterLostWrite(o, env, before);
  }

  // ---------- convergence ----------

  /** A step in which everything works and the data volume references of `o` resolve. */
  predicate Smooth(o: Object, env: Env) {
    && Running(o, env) && !Interrupted(o, env)
    && env.statusLands && Classify(POST, env.volumeAnswer).Ok?
    && AllResolve(env.refs, BlockStorage, o.spec.dataVolumes)
  }

  function Desired(o: Object, env: Env): seq<string>
    requires AllResolve(env.refs, BlockStorage, o.spec.dataVolumes)
  {
    LookupAll(env.refs, BlockStorage, o.spec.dataVolumes)
  }

  predicate Quiet(o: Object, env: Env) {
    Reconcile(o, env) == Outcome(Some(o), [], NoWrite, DONE)
  }

  predicate SettledServer(o: Object, env: Env) {
    && o.key.kind == CloudServer && o.status.phase == Created
    && o.status.observedGeneration == o.generation
    && AllResolve(env.refs, BlockStorage, o.spec.dataVolumes)
    && Elements(Desired(o, env)) == Elements(o.status.dataVolumeIDs)
  }

  /** A smooth step of a Created server either has nothing to do, which means it is settled, or
      enters Updating with its generation observed. */
  lemma SmoothCreated(o: Object, env: Env)
    requires Smooth(o, env) && o.key.kind == CloudServer && o.status.phase == Created
    ensures Quiet(o, env) <==> SettledServer(o, env)
    ensures !Quiet(o, env) ==>
              var out := Reconcile(o, env);
              && out.calls == [] && out.write.Landed? && out.post.Some?
              && out.post.value == o.(status := out.post.value.status)
              && out.post.value.status.phase == Updating
              && out.post.value.status.observedGeneration == o.generation
              && out.post.value.status.phaseStartTime == Some(env.now)
  {
    hide Create, Update, Provision, Delete, Initialize;
    DiffReachesDesired(Desired(o, env), o.status.dataVolumeIDs);
  }

  /** A smooth step of an Updating server whose generation is observed settles it. */
  lemma SmoothUpdating(o: Object, env: Env)
    requires Smooth(o, env) && o.key.kind == CloudServer && o.status.phase == Updating
    requires o.status.observedGeneration == o.generation
    ensures var out := Reconcile(o, env);
            && out.post.Some? && out.post.value == o.(status := out.post.value.status)
            && SettledServer(out.post.value, env)
  {
    hide Create, Steady, Provision, Delete, Initialize;
    DiffReachesDesired(Desired(o, env), o.status.dataVolumeIDs);
  }

  /** With stable references, a Created server is quiet after at most one pass through
      Updating: at once, or after two smooth steps. */
  lemma OnePassSettles(o: Object, env1: Env, env2: Env, env3: Env)
    requires o.key.kind == CloudServer && o.status.phase == Created && !o.deleting
    requires env1.refs == env2.refs == env3.refs
    requires Smooth(o, env1) && Running(o, env2) && Running(o, env3)
    requires env2.statusLands && Classify(POST, env2.volumeAnswer).Ok?
    requires env3.statusLands && Classify(POST, env3.volumeAnswer).Ok?
    requires env2.now - env1.now <= MAX_PHASE_TIMEOUT
    ensures Quiet(o, env1) ||
            var updating := Reconcile(o, env1).post;
            updating.Some? && updating.value.status.phase == Updating &&
            var created := Reconcile(updating.value, env2).post;
            created.Some? && SettledServer(created.value, env3) && Quiet(created.value, env3)
  {
    hide Reconcile, Quiet;
    SmoothCreated(o, env1);
    if !Quiet(o, env1) {
      var updating := Reconcile(o, env1).post.value;
      SmoothUpdating(updating, env2);
      SmoothCreated(Reconcile(updating, env2).post.value, env3);
    }
  }
}
