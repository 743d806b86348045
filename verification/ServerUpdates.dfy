/** What a CloudServer sends after an edit, and what it records of it. */
module ServerUpdates {
  import opened Api
  import opened Helper
  import opened Engine
  import opened Steps
  import opened Runs
  import opened Progress
  import opened Convergence
  import opened Volumes
  import Deletion

  predicate SendsPut(calls: seq<Exchange>) {
    exists x :: x in calls && x.call.Put?
  }

  lemma ServerPutIff(o: Object, env: Env)
    requires o.key.kind == CloudServer && o.status.phase == Updating
    requires Running(o, env) && !Interrupted(o, env)
    requires ResolveAttachments(o.spec, env.refs, o.status.links).Some?
    ensures SendsPut(Reconcile(o, env).calls) <==> o.status.observedGeneration != o.generation
  {
    if o.status.observedGeneration == o.generation {
      UpdatingWithoutPut(o, env);
    } else {
      hide Decide, UpdateVolumes, ResolveAttachments, PathOf;
      UpdatingServerStep(o, env);
      var links := ResolveAttachments(o.spec, env.refs, o.status.links).value;
      var put := Exchange(Put(Address(o), o.spec, links), env.answer);
      UpdateVolumesKeepsLinks(o, o.status.(links := links.(elasticIpID := "")), env, [put]);
      assert Reconcile(o, env).calls[0] == put;
    }
  }

  /** A CloudServer step in Updating whose references resolve sends the property update
      exactly when an edit landed after the last landed status write. */
  lemma ServerUpdateIsSentIff(run: seq<Turn>, env: Env)
    requires ValidRun(run) && Final(run).Some?
    requires var o := Final(run).value;
             && o.key.kind == CloudServer && o.status.phase == Updating
             && Running(o, env) && !Interrupted(o, env)
             && ResolveAttachments(o.spec, env.refs, o.status.links).Some?
    ensures SendsPut(Reconcile(Final(run).value, env).calls) <==> EditsSinceWrite(run) > 0
  {
    hide Reconcile;
    AlwaysConsistent(run);
    ObservedGenerationIsARegister(run);
    ServerPutIff(Final(run).value, env);
  }

  lemma UpdatingWithoutPut(o: Object, env: Env)
    requires o.key.kind == CloudServer && o.status.phase == Updating
    requires o.status.observedGeneration == o.generation
    ensures !SendsPut(Reconcile(o, env).calls)
  {
  }

  /** A lone edit of a Created CloudServer is therefore never sent: the step that enters
      Updating marks it observed, and the step after that finds nothing to update. */
  lemma LoneEditIsNotSent(o: Object, spec: Spec, env1: Env, env2: Env)
    requires Consistent(o) && o.key.kind == CloudServer && o.status.phase == Created && spec != o.spec
    requires var out := Reconcile(Serve(o, Edit(spec)).value, env1);
             out.write.Landed? && out.write.move.next == Updating
    ensures var out := Reconcile(Serve(o, Edit(spec)).value, env1);
            && !SendsPut(out.calls)
            && out.post.Some? && out.post.value.spec == spec
            && !SendsPut(Reconcile(out.post.value, env2).calls)
  {
    hide Decide;
    var edited := Serve(o, Edit(spec)).value;
    DecideSound(edited, env1);
    UpdatingWithoutPut(Reconcile(edited, env1).post.value, env2);
  }

  /** A server owes a property update only while it is Updating with an edit unobserved. */
  predicate Owes(o: Object) {
    o.status.phase == Updating && o.status.observedGeneration != o.generation && !o.deleting
  }

  /** Nor is it sent later: from any moment at which a server owes nothing, such as right after
      an edit that lands in Created or Provisioning, no step of any run sends its property
      update until another edit lands. */
  lemma {:induction false} NoPutUntilEdit(run: seq<Turn>, i: nat, j: nat)
    requires ValidRun(run) && i < j < |run|
    requires run[i].out.post.Some? && run[i].out.post.value.key.kind == CloudServer
    requires !Owes(run[i].out.post.value)
    requires forall k :: i < k < j ==> !run[k].act.Edit?
    ensures run[j].pre.Some? && run[j].pre.value.key.kind == CloudServer && !Owes(run[j].pre.value)
    ensures !SendsPut(run[j].out.calls)
    decreases j
  {
    hide Reconcile;
    PrefixValid(run, j);
    if i < j - 1 {
      NoPutUntilEdit(run, i, j - 1);
      PrefixValid(run, j - 1);
      if run[j-1].act.Step? {
        StepKeepsMetadata(run[j-1].pre.value, run[j-1].act.env);
        StepObserves(run[j-1].pre.value, run[j-1].act.env);
      }
    }
    if run[j].act.Step? {
      if SendsPut(run[j].out.calls) {
        SendsOnlyIfOwed(run[j].pre.value, run[j].act.env);
      }
    }
  }

  lemma SendsOnlyIfOwed(o: Object, env: Env)
    requires o.key.kind == CloudServer && SendsPut(Reconcile(o, env).calls)
    ensures Owes(o)
  {
    hide Reconcile;
    PutOnlyInUpdating(o, env);
    if o.deleting {
      Deletion.StepOnMarked(o, env);
    }
    if o.status.phase == Updating && o.status.observedGeneration == o.generation {
      UpdatingWithoutPut(o, env);
    }
  }

  lemma PutOnlyInUpdating(o: Object, env: Env)
    ensures SendsPut(Reconcile(o, env).calls) ==> o.status.phase == Updating && Running(o, env) && !Interrupted(o, env)
  {
    hide Decide;
    DecideSound(o, env);
  }

  // ---------- which edits reach the remote server ----------

  /** What becomes of the last edit: it was taken up by the create or by an update, it waits
      for the step that will send it, or no step will. */
  datatype Fate = Clear | Due | Lost

  /** The step gets as far as the property update, and the remote cloud accepts it. */
  predicate UpdateAccepted(o: Object, env: Env) {
    && Running(o, env) && !Interrupted(o, env)
    && ResolveAttachments(o.spec, env.refs, o.status.links).Some?
    && Classify(PUT, env.answer).Ok?
  }

  function EditFate(phase: Phase): Fate {
    if phase in {Initial, Creating} then Clear else if phase == Updating then Due else Lost
  }

  /** A due edit is taken up by the step whose update is accepted, and lost to any other status
      write that lands first.  A lost one stays lost. */
  function StepFate(fate: Fate, o: Object, env: Env, write: Write): Fate {
    if fate != Due then fate
    else if UpdateAccepted(o, env) then Clear
    else if write.Landed? then Lost
    else Due
  }

  function LastEdit(run: seq<Turn>): Fate {
    if run == [] || Latest(run).pre.None? then Clear
    else
      var t := Latest(run);
      match t.act
      case Edit(_) => EditFate(t.pre.value.status.phase)
      case Step(env) => StepFate(LastEdit(Earlier(run)), t.pre.value, env, t.out.write)
      case _ => LastEdit(Earlier(run))
  }

  /** In phase Updating an update is sent and acknowledged exactly when it is owed and accepted. */
  lemma UpdateSentIff(o: Object, env: Env)
    requires o.key.kind == CloudServer && o.status.phase == Updating
    ensures SentIn(o, Reconcile(o, env).calls).Some? <==> Owes(o) && UpdateAccepted(o, env)
  {
    hide ResolveAttachments, PathOf, Classify, Reconcile;
    if Running(o, env) && !Interrupted(o, env) {
      if o.status.observedGeneration == o.generation {
        UpdatingWithoutPut(o, env);
        OnlyPutsWhileUpdating(o, env);
      } else {
        OwedCalls(o, env);
      }
    } else {
      QuietUnlessRunning(o, env);
    }
  }

  lemma QuietUnlessRunning(o: Object, env: Env)
    requires !Running(o, env) || Interrupted(o, env)
    ensures Reconcile(o, env).calls == []
  {
    hide Handle;
  }

  lemma OnlyPutsWhileUpdating(o: Object, env: Env)
    requires o.status.phase == Updating
    ensures SentIn(o, Reconcile(o, env).calls).Some? ==> SendsPut(Reconcile(o, env).calls)
  {
    hide Decide;
    DecideSound(o, env);
    if Reconcile(o, env).calls != [] {
      assert Reconcile(o, env).calls[0] in Reconcile(o, env).calls;
    }
  }

  lemma OwedCalls(o: Object, env: Env)
    requires o.key.kind == CloudServer && o.status.phase == Updating
    requires Running(o, env) && !Interrupted(o, env) && o.status.observedGeneration != o.generation
    ensures var calls, links := Reconcile(o, env).calls, ResolveAttachments(o.spec, env.refs, o.status.links);
            if links.None? then calls == []
            else calls != [] && calls[0] == Exchange(Put(Address(o), o.spec, links.value), env.answer)
  {
    hide Decide, UpdateVolumes, ResolveAttachments, PathOf, Classify;
    UpdatingServerStep(o, env);
    var links := ResolveAttachments(o.spec, env.refs, o.status.links);
    if links.Some? {
      var put := Exchange(Put(Address(o), o.spec, links.value), env.answer);
      UpdateVolumesKeepsLinks(o, o.status.(links := links.value.(elasticIpID := "")), env, [put]);
    }
  }

  /** How the fate of the last edit shows in the stored object. */
  predicate FateShows(o: Object, unsent: bool, fate: Fate) {
    && (o.status.phase in {Initial, Creating} ==> fate == Clear)
    && (o.status.phase in {Provisioning, Created, Updating} && !o.deleting ==>
          && (unsent <==> fate != Clear)
          && (fate == Due ==> Owes(o)) && (fate == Lost ==> !Owes(o)))
  }

  lemma PlanShowsFate(o: Object, env: Env, p: Plan, unsent: bool, fate: Fate)
    requires Consistent(o) && Fits(o, env, p) && o.key.kind == CloudServer
    requires o.status.phase == Updating ==> (SentIn(o, p.calls).Some? <==> Owes(o) && UpdateAccepted(o, env))
    requires FateShows(o, unsent, fate)
    ensures var out := Perform(o, p, env);
            out.post.Some? ==>
              FateShows(out.post.value, SentIn(o, out.calls).None? && unsent, StepFate(fate, o, env, out.write))
  {
    hide TimeToNextInterval, PathOf, Conditions.Updated, UpdateAccepted, Classify;
    if p.calls != [] {
      assert p.calls[0] in p.calls && CallOk(o, p.calls[0].call);
    }
  }

  lemma StepShowsFate(o: Object, env: Env, unsent: bool, fate: Fate)
    requires Consistent(o) && o.key.kind == CloudServer && FateShows(o, unsent, fate)
    ensures var out := Reconcile(o, env);
            out.post.Some? ==>
              FateShows(out.post.value, SentIn(o, out.calls).None? && unsent, StepFate(fate, o, env, out.write))
  {
    hide Decide, FateShows, StepFate, SentIn, UpdateAccepted;
    DecideSound(o, env);
    if o.status.phase == Updating {
      UpdateSentIff(o, env);
    }
    PlanShowsFate(o, env, Decide(o, env), unsent, fate);
  }

  lemma {:induction false} RunShowsFate(run: seq<Turn>)
    requires ValidRun(run) && Final(run).Some? && Final(run).value.key.kind == CloudServer
    ensures FateShows(Final(run).value, EditUnsent(run), LastEdit(run))
  {
    hide Reconcile, UpdateAccepted;
    EarlierValid(run);
    var earlier, t := Earlier(run), Latest(run);
    if earlier != [] {
      AlwaysConsistent(earlier);
      if t.act.Step? {
        StepKeepsMetadata(t.pre.value, t.act.env);
        RunShowsFate(earlier);
        StepShowsFate(t.pre.value, t.act.env, EditUnsent(earlier), LastEdit(earlier));
      } else {
        RunShowsFate(earlier);
      }
    }
  }

  /** When a CloudServer has been told its current spec: exactly when its last edit was taken
      up.  Once it rests in Created that means exactly when the last edit did not land in
      Provisioning or Created, and none that landed in Updating lost its turn to another write. */
  lemma ServerConvergence(run: seq<Turn>)
    requires ValidRun(run) && Final(run).Some? && Final(run).value.key.kind == CloudServer
    requires Final(run).value.status.phase in {Provisioning, Created, Updating} && !Final(run).value.deleting
    ensures LastSent(run) == Some(Sent(Final(run).value.generation, Final(run).value.spec)) <==> LastEdit(run) == Clear
    ensures Final(run).value.status.phase != Updating ==> LastEdit(run) != Due
  {
    hide Reconcile, LastSent, EditUnsent, LastEdit;
    RunShowsFate(run);
    SentIsCurrentIff(run);
  }

  // ---------- what the requests carry ----------

  /** A property update carries the spec and the identifiers its references resolve to. */
  lemma PutResolves(o: Object, env: Env, x: Exchange)
    requires o.key.kind == CloudServer && x in Reconcile(o, env).calls && x.call.Put?
    ensures Running(o, env) && !Interrupted(o, env) && o.status.phase == Updating
    ensures o.status.observedGeneration != o.generation
    ensures ResolveAttachments(o.spec, env.refs, o.status.links) == Some(x.call.links) && x.call.spec == o.spec
  {
    hide Decide, ResolveAttachments, PathOf, Classify;
    PutOnlyInUpdating(o, env);
    UpdatingServerStep(o, env);
    if o.status.observedGeneration == o.generation {
      UpdatingWithoutPut(o, env);
    }
    var links := ResolveAttachments(o.spec, env.refs, o.status.links);
    if links.Some? {
      var put := Exchange(Put(Address(o), o.spec, links.value), env.answer);
      UpdateVolumesKeepsLinks(o, o.status.(links := links.value.(elasticIpID := "")), env, [put]);
    }
  }

  /** The request is the diff of what the data volume references resolve to and the record. */
  predicate Diffs(o: Object, env: Env, x: Exchange)
    requires x.call.AttachDetach?
  {
    && AllResolve(env.refs, BlockStorage, o.spec.dataVolumes)
    && var desired := LookupAll(env.refs, BlockStorage, o.spec.dataVolumes);
       && x.call.toAttach == Without(desired, o.status.dataVolumeIDs)
       && x.call.toDetach == Without(o.status.dataVolumeIDs, desired)
  }

  lemma UpdateVolumesDiffs(o: Object, mem: Status, env: Env, calls: seq<Exchange>, x: Exchange)
    requires mem.dataVolumeIDs == o.status.dataVolumeIDs && x !in calls
    requires x in UpdateVolumes(o, mem, env, calls).calls && x.call.AttachDetach?
    ensures Diffs(o, env, x)
  {
    hide Classify, FailureMove, PathOf, Without;
  }

  lemma AttachDiffs(o: Object, env: Env, x: Exchange)
    requires x in Reconcile(o, env).calls && x.call.AttachDetach?
    ensures o.key.kind == CloudServer && Diffs(o, env, x)
  {
    hide Decide, UpdateVolumes, ResolveAttachments, PathOf, Classify, FailureMove, Diffs;
    DecideSound(o, env);
    assert CallOk(o, x.call);
    UpdatingServerStep(o, env);
    if o.status.observedGeneration == o.generation {
      UpdateVolumesDiffs(o, o.status, env, [], x);
    } else {
      var links := ResolveAttachments(o.spec, env.refs, o.status.links);
      var put := Exchange(Put(Address(o), o.spec, links.value), env.answer);
      UpdateVolumesDiffs(o, o.status.(links := links.value.(elasticIpID := "")), env, [put], x);
    }
  }

  /** A property update of a CloudServer empties the elastic IP in the status, so the status
      agrees with the request exactly when the spec names none. */
  lemma ServerUpdateForgetsElasticIp(o: Object, env: Env, x: Exchange)
    requires o.key.kind == CloudServer && Reconcile(o, env).write.Landed?
    requires x in Reconcile(o, env).calls && x.call.Put? && x.Acknowledged()
    ensures var post := Reconcile(o, env).post;
            && post.Some? && post.value.status.links.elasticIpID == ""
            && (post.value.status.links.elasticIpID == x.call.links.elasticIpID <==> o.spec.elasticIp.None?)
  {
    hide Decide, ResolveAttachments;
    PutResolves(o, env, x);
    UpdatingServerStep(o, env);
    ResolvedElasticIp(o.spec, env.refs, o.status.links);
    var links := x.call.links;
    var put := Exchange(Put(Address(o), o.spec, links), env.answer);
    UpdateVolumesKeepsLinks(o, o.status.(links := links.(elasticIpID := "")), env, [put]);
  }

  lemma ResolvedElasticIp(spec: Spec, refs: map<Key, string>, held: Links)
    ensures var links := ResolveAttachments(spec, refs, held);
            links.Some? ==> (links.value.elasticIpID == "" <==> spec.elasticIp.None?)
  {
    hide AllResolve, LookupAll;
  }

  lemma UpdateVolumesKeepsLinks(o: Object, mem: Status, env: Env, calls: seq<Exchange>)
    ensures var p := UpdateVolumes(o, mem, env, calls);
            && p.Go? && !p.guard && p.mem.links == mem.links && calls <= p.calls
            && forall x :: x in p.calls ==> x in calls || x.call.AttachDetach?
  {
  }
}
