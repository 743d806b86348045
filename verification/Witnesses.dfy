/** Runs that do occur: one for every edge of the lifecycle graph, and one for each exception
    named below. */
module Witnesses {
  import opened Api
  import opened Helper
  import opened Engine
  import opened Steps
  import opened Runs
  import opened Convergence
  import opened Lifecycle
  import opened Register
  import PhaseGraph
  import ServerUpdates
  import Fleet
  import Identity
  import Progress
  import VolumeAgreement
  import Volumes
  import Conditions

  const HOME: Reference := Reference("ns", "a")
  const FIRST_SPEC: Spec := Spec("t", "small", HOME, HOME, HOME, HOME, HOME, None, [], [], [])
  const LARGER_SPEC: Spec := FIRST_SPEC.(settings := "large")
  const VOLUME_SPEC: Spec := FIRST_SPEC.(dataVolumes := [HOME])
  const IP_SPEC: Spec := FIRST_SPEC.(elasticIp := Some(HOME))

  lemma SpecsDiffer()
    ensures LARGER_SPEC != FIRST_SPEC && VOLUME_SPEC != FIRST_SPEC && IP_SPEC != FIRST_SPEC
    ensures LARGER_SPEC != IP_SPEC
  {
    assert LARGER_SPEC.settings[0] != FIRST_SPEC.settings[0];
    assert |VOLUME_SPEC.dataVolumes| != |FIRST_SPEC.dataVolumes|;
    assert IP_SPEC.elasticIp != FIRST_SPEC.elasticIp;
    assert IP_SPEC.settings[0] != LARGER_SPEC.settings[0];
  }

  function Places(): map<Key, string> {
    map[Key(Project, HOME) := "id", Key(Vpc, HOME) := "id", Key(SecurityGroup, HOME) := "id",
        Key(BlockStorage, HOME) := "id", Key(KeyPair, HOME) := "id", Key(ElasticIp, HOME) := "id"]
  }

  /** A step at time 0 in which every write lands and every reference resolves. */
  function Fine(answer: Answer): Env {
    Env(0, true, false, true, Places(), answer, Response(200, Empty), true, true, "")
  }

  function Reports(state: RemoteState): Answer { Response(200, Parsed("id", state)) }

  lemma FirstSpecResolves(kind: Kind)
    ensures ResolveForCreate(kind, FIRST_SPEC, Places()).Some?
  {
    var links := NO_LINKS.(projectID := "id", vpcID := "id");
    assert ResolveAttachments(FIRST_SPEC, Places(), links).Some?;
  }

  // ---------- getting to a phase ----------

  /** A run at time 0 that has brought an object of a kind to a phase. */
  predicate At(run: seq<Turn>, kind: Kind, phase: Phase, spec: Spec) {
    && ValidRun(run) && Final(run).Some?
    && var o := Final(run).value;
       && o.key == Key(kind, HOME) && o.spec == spec && o.status.phase == phase
       && !o.deleting && o.finalizers != []
       && (o.status.phase == Initial <==> !o.Guarded())
       && (o.status.phase != Initial ==> o.status.phaseStartTime == Some(0))
       && o.status.dataVolumeIDs == []
       && (o.status.phase == Updating ==> o.status.observedGeneration == o.generation)
       && VolumeAgreement.Attached(run) == {}
  }

  predicate NeverEdited(run: seq<Turn>) {
    Progress.Edits(run) == 0 && Progress.EntriesIntoUpdating(run) == 0
  }

  predicate NothingCreated(run: seq<Turn>) {
    Identity.AcknowledgedCreates(run) == 0 && Identity.ForgottenCreates(run) == 0
  }

  lemma ReachInitial(kind: Kind) returns (run: seq<Turn>)
    ensures At(run, kind, Initial, FIRST_SPEC) && New(Final(run).value) && NeverEdited(run) && NothingCreated(run)
  {
    run := Start(Object(Key(kind, HOME), FIRST_SPEC, 1, [Foreign("f")], false, NO_STATUS));
  }

  lemma ReachCreating(kind: Kind) returns (run: seq<Turn>)
    ensures At(run, kind, Creating, FIRST_SPEC) && Final(run).value.generation == 1
    ensures NeverEdited(run) && NothingCreated(run)
  {
    hide Reconcile;
    var run0 := ReachInitial(kind);
    InitialStep(Final(run0).value, Fine(NoResponse));
    ExtendValid(run0, Step(Fine(NoResponse)));
    run := Extend(run0, Step(Fine(NoResponse)));
  }

  /** Past its create, the object's first and only spec has been sent. */
  lemma ReachCreateAnswered(kind: Kind, state: RemoteState) returns (run: seq<Turn>)
    ensures At(run, kind, if kind != Project && Underway(state) then Provisioning else Created, FIRST_SPEC)
    ensures Final(run).value.generation == Final(run).value.status.observedGeneration == 1 && NeverEdited(run)
    ensures LastSent(run) == Some(Sent(1, FIRST_SPEC)) && !EditMissed(run)
  {
    hide Reconcile, ResolveForCreate;
    var run0 := ReachCreating(kind);
    var o, env := Final(run0).value, Fine(Reports(state));
    FirstSpecResolves(kind);
    CreatingStep(o, env);
    VolumeAgreement.QuietCalls(Reconcile(o, env).calls, {});
    ExtendValid(run0, Step(env));
    run := Extend(run0, Step(env));
  }

  lemma EditedServerStep(o: Object, env: Env)
    requires o.key.kind == CloudServer && o.status.phase == Created && !o.deleting && Unhindered(o, env)
    requires AllResolve(env.refs, BlockStorage, o.spec.dataVolumes) && o.status.observedGeneration != o.generation
    ensures Starts(o, env)
  {
    hide Create, Provision, Update, Delete, Initialize, Conditions.Updated;
  }

  lemma ReachUpdating(kind: Kind, spec: Spec) returns (run: seq<Turn>)
    requires spec in {LARGER_SPEC, VOLUME_SPEC}
    ensures At(run, kind, Updating, spec)
    ensures Final(run).value.generation == 2
    ensures LastSent(run) == Some(Sent(1, FIRST_SPEC)) && !EditMissed(run)
  {
    hide Reconcile;
    var run0 := ReachCreateAnswered(kind, Active);
    SpecsDiffer();
    ExtendValid(run0, Edit(spec));
    var run1 := Extend(run0, Edit(spec));
    assert LastSent(run1) == LastSent(run0) && !EditMissed(run1) && VolumeAgreement.Attached(run1) == {};
    var o, env := Final(run1).value, Fine(NoResponse);
    if kind == CloudServer { EditedServerStep(o, env); } else { EditedStep(o, env); }
    ExtendValid(run1, Step(env));
    run := Extend(run1, Step(env));
    assert LastSent(run) == LastSent(run1) && !EditMissed(run) && VolumeAgreement.Attached(run) == {};
  }

  // ---------- every edge of the graph ----------

  predicate Lands(o: Object, env: Env, to: Phase) {
    Reconcile(o, env).write.Landed? && Reconcile(o, env).write.move.next == to
  }

  /** The last turn of the run took the edge. */
  predicate Took(run: seq<Turn>, kind: Kind, from: Phase, to: Phase) {
    && ValidRun(run) && run != []
    && var t := Latest(run);
       && t.act.Step? && t.pre.Some?
       && t.pre.value.key.kind == kind && t.pre.value.status.phase == from
       && t.out.write.Landed? && t.out.write.move.next == to
  }

  lemma StepOn(run: seq<Turn>, env: Env, to: Phase)
    requires ValidRun(run) && Final(run).Some? && Lands(Final(run).value, env, to)
    ensures Took(Extend(run, Step(env)), Final(run).value.key.kind, Final(run).value.status.phase, to)
  {
    hide Reconcile;
    ExtendValid(run, Step(env));
  }

  lemma PhaseChangeLands(o: Object, env: Env)
    requires Reconcile(o, env).post.Some? && Reconcile(o, env).post.value.status.phase != o.status.phase
    ensures Lands(o, env, Reconcile(o, env).post.value.status.phase)
  {
    hide Reconcile;
    PhaseGraph.StepFollowsGraph(o, env);
  }

  lemma TimeoutLands(o: Object, env: Env)
    requires Running(o, env) && TimedOut(o.status, env.now) && env.statusLands
    ensures Lands(o, env, Failed)
  {
    hide Handle;
  }

  /** At the start of a phase nothing is debounced. */
  lemma RetryLands(o: Object, env: Env)
    requires Decide(o, env).Go? && Decide(o, env).mem.phaseStartTime == Some(env.now) && env.statusLands
    ensures Lands(o, env, Decide(o, env).move.next)
  {
    hide Decide;
  }

  lemma RetryInitial(o: Object, env: Env)
    requires o.status.phase == Initial && !o.deleting && !o.Guarded()
    requires Running(o, env) && !env.metaLands && env.statusLands
    ensures Lands(o, env, Initial)
  {
    hide Create, Provision, Update, Steady, Delete;
  }

  /** Nothing resolves and nothing answers. */
  function Dead(): Env { Fine(NoResponse).(refs := map[]) }

  lemma RetryCreating(o: Object)
    requires o.status.phase == Creating && !o.deleting && o.status.phaseStartTime == Some(0) && o.spec == FIRST_SPEC
    ensures Lands(o, Dead(), Creating)
  {
    hide Initialize, Provision, Update, Steady, Delete, PathOf, Recorded, ResolveAttachments, Lands;
    RetryLands(o, Dead());
  }

  lemma RetryProvisioning(o: Object, env: Env)
    requires o.status.phase == Provisioning && !o.deleting && o.status.phaseStartTime == Some(0) && Running(o, env)
    requires o.key.kind != Project && env == Fine(Reports(InCreation))
    ensures Lands(o, env, Provisioning)
  {
    hide Initialize, Create, Update, Steady, Delete, PathOf, Lands;
    RetryLands(o, env);
  }

  lemma RetryUpdating(o: Object)
    requires o.status.phase == Updating && !o.deleting && o.status.phaseStartTime == Some(0) && o.spec == VOLUME_SPEC
    requires o.status.observedGeneration == o.generation
    ensures Lands(o, Dead(), Updating)
  {
    hide Initialize, Create, Provision, Steady, Delete, PathOf, Lands;
    assert Lookup(Dead().refs, BlockStorage, o.spec.dataVolumes[0]).None?;
    RetryLands(o, Dead());
  }

  lemma FinishUpdating(o: Object, env: Env)
    requires o.status.phase == Updating && !o.deleting && o.status.phaseStartTime == Some(0)
    requires o.status.observedGeneration == o.generation && o.spec in {LARGER_SPEC, VOLUME_SPEC}
    requires env == Fine(Reports(Active))
    ensures Lands(o, env, Created)
  {
    if o.key.kind == CloudServer {
      hide Reconcile, Lands;
      VolumeAgreement.SmoothUpdating(o, env);
      PhaseChangeLands(o, env);
    } else {
      hide Initialize, Create, Provision, Steady, Delete, PathOf, TimeToNextInterval, Conditions.Updated;
    }
  }

  lemma RetryCreated(o: Object)
    requires o.key.kind == CloudServer && o.status.phase == Created && !o.deleting
    requires o.status.phaseStartTime == Some(0) && o.spec == VOLUME_SPEC
    ensures Lands(o, Dead(), Created)
  {
    hide Initialize, Create, Provision, Update, Delete, PathOf, Lands;
    assert Lookup(Dead().refs, BlockStorage, o.spec.dataVolumes[0]).None?;
    RetryLands(o, Dead());
  }

  lemma RetryDeleting(o: Object)
    requires o.status.phase == Deleting && o.status.phaseStartTime == Some(0) && o.spec.tenant == "t"
    ensures Lands(o, Dead(), Deleting)
  {
    hide Initialize, Create, Provision, Update, Steady, PathOf, Lands;
    RetryLands(o, Dead());
  }

  /** A run that ends in a phase other than Deleting; Updating is entered after an edit. */
  lemma Reach(kind: Kind, phase: Phase) returns (run: seq<Turn>)
    requires phase in {Initial, Creating, Provisioning, Created, Updating}
    requires !(kind == Project && phase == Provisioning)
    ensures At(run, kind, phase, if phase == Updating then VOLUME_SPEC else FIRST_SPEC)
    ensures phase == Created ==> Final(run).value.status.observedGeneration == Final(run).value.generation
    ensures phase == Initial ==> New(Final(run).value)
  {
    hide At;
    match phase
    case Initial => run := ReachInitial(kind);
    case Creating => run := ReachCreating(kind);
    case Provisioning => run := ReachCreateAnswered(kind, InCreation);
    case Created => run := ReachCreateAnswered(kind, Active);
    case Updating => run := ReachUpdating(kind, VOLUME_SPEC);
  }

  /** A user's deletion mark, and the step that follows it. */
  lemma Marked(run: seq<Turn>) returns (run': seq<Turn>)
    requires ValidRun(run) && Final(run).Some?
    requires var o := Final(run).value;
             && !o.deleting && o.finalizers != [] && o.spec.tenant == "t"
             && o.status.phase !in {Deleting, Failed}
             && (o.status.phaseStartTime.Some? ==> o.status.phaseStartTime == Some(0))
    ensures Took(run', Final(run).value.key.kind, Final(run).value.status.phase, Deleting)
    ensures ValidRun(run') && Final(run').Some?
    ensures var o := Final(run').value;
            && o.key == Final(run).value.key && o.spec == Final(run).value.spec
            && o.status.phase == Deleting && o.status.phaseStartTime == Some(0)
  {
    hide Reconcile;
    ExtendValid(run, MarkDeleted);
    var run1 := Extend(run, MarkDeleted);
    var o := Final(run1).value;
    MarkedStep(o, Fine(NoResponse));
    PhaseChangeLands(o, Fine(NoResponse));
    StepOn(run1, Fine(NoResponse), Deleting);
    run' := Extend(run1, Step(Fine(NoResponse)));
    ExtendValid(run1, Step(Fine(NoResponse)));
  }

  /** A step long after the phase was entered. */
  function Late(): Env { Fine(NoResponse).(now := MAX_PHASE_TIMEOUT + 1) }

  lemma StaysOccur(kind: Kind, phase: Phase) returns (run: seq<Turn>)
    requires Edge(kind, phase, phase) && phase != Deleting && !(kind == Project && phase == Provisioning)
    ensures Took(run, kind, phase, phase)
  {
    hide Reconcile, Lands, ValidRun, Final;
    var run0 := Reach(kind, phase);
    var o := Final(run0).value;
    var env := Dead();
    match phase {
      case Initial => env := Fine(NoResponse).(metaLands := false); RetryInitial(o, env);
      case Creating => RetryCreating(o);
      case Provisioning => env := Fine(Reports(InCreation)); RetryProvisioning(o, env);
      case Updating => RetryUpdating(o);
      case Created =>
        SpecsDiffer();
        ExtendValid(run0, Edit(VOLUME_SPEC));
        run0 := Extend(run0, Edit(VOLUME_SPEC));
        RetryCreated(Final(run0).value);
    }
    StepOn(run0, env, phase);
    run := Extend(run0, Step(env));
  }

  /** The steps that go on with an object's life. */
  lemma AdvancesOccur(kind: Kind, from: Phase, to: Phase) returns (run: seq<Turn>)
    requires Edge(kind, from, to) && to in {Creating, Provisioning, Created, Updating} && from != to
    requires from != Deleted && !(kind == Project && from == Provisioning)
    ensures Took(run, kind, from, to)
  {
    hide Reconcile, Lands, ValidRun, Final, ResolveForCreate;
    var run0 := Reach(kind, from);
    var env := Fine(Reports(if to == Provisioning then InCreation else Active));
    match from {
      case Initial => InitialStep(Final(run0).value, env);
      case Creating => FirstSpecResolves(kind); CreatingStep(Final(run0).value, env);
      case Provisioning => ProvisioningStep(Final(run0).value, env);
      case Updating => FinishUpdating(Final(run0).value, env);
      case Created =>
        SpecsDiffer();
        ExtendValid(run0, Edit(LARGER_SPEC));
        run0 := Extend(run0, Edit(LARGER_SPEC));
        var edited := Final(run0).value;
        if kind == CloudServer { EditedServerStep(edited, env); } else { EditedStep(edited, env); }
    }
    if from != Updating {
      PhaseChangeLands(Final(run0).value, env);
    }
    StepOn(run0, env, to);
    run := Extend(run0, Step(env));
  }

  /** The graph is exact: every edge of it, for every kind, is taken by the last turn of some
      run, except from the two phases no run stores. */
  lemma EdgesOccur(kind: Kind, from: Phase, to: Phase)
    requires Edge(kind, from, to) && from != Deleted && !(kind == Project && from == Provisioning)
    ensures exists run :: Took(run, kind, from, to)
  {
    hide Reconcile, Lands, Took;
    if from == Deleting {
      var creating := Reach(kind, Creating);
      var run := Marked(creating);
      if to == Deleting { RetryDeleting(Final(run).value); } else { TimeoutLands(Final(run).value, Late()); }
      StepOn(run, if to == Deleting then Dead() else Late(), to);
    } else if to == Deleting {
      var reached := Reach(kind, from);
      var run := Marked(reached);
    } else if to == Failed {
      var run := Reach(kind, from);
      TimeoutLands(Final(run).value, Late());
      StepOn(run, Late(), Failed);
    } else if from == to {
      var run := StaysOccur(kind, from);
    } else {
      var run := AdvancesOccur(kind, from, to);
    }
  }

  // ---------- the exceptions ----------

  /** An object of any kind that is edited while the remote cloud is still creating it ends
      Created, with the edited generation observed, although only the first spec was sent. */
  lemma MissedEditOccurs(kind: Kind)
    requires kind != Project
    ensures exists run ::
              && ValidRun(run) && Final(run).Some? && Final(run).value.key.kind == kind
              && Final(run).value.status.phase == Created && Final(run).value.spec == LARGER_SPEC
              && Final(run).value.status.observedGeneration == Final(run).value.generation == 2
              && LastSent(run) == Some(Sent(1, FIRST_SPEC))
  {
    hide Reconcile;
    var run0 := ReachCreateAnswered(kind, InCreation);
    SpecsDiffer();
    ExtendValid(run0, Edit(LARGER_SPEC));
    var run1 := Extend(run0, Edit(LARGER_SPEC));
    assert LastSent(run1) == LastSent(run0);
    var env := Fine(Reports(Active));
    ProvisioningStep(Final(run1).value, env);
    ExtendValid(run1, Step(env));
    var run2 := Extend(run1, Step(env));
    assert LastSent(run2) == LastSent(run1);
  }

  lemma ObservedServerSendsNothing(o: Object, env: Env)
    requires o.key.kind == CloudServer && o.status.phase == Updating
    requires o.status.observedGeneration == o.generation
    ensures SentIn(o, Reconcile(o, env).calls) == None
  {
    hide Decide;
    ServerUpdates.UpdatingWithoutPut(o, env);
    DecideSound(o, env);
    if Reconcile(o, env).calls != [] {
      assert Reconcile(o, env).calls[0] in Reconcile(o, env).calls;
    }
  }

  /** A server edited once while Created ends Created, with the edited generation observed,
      although only its first spec was sent. */
  lemma LoneEditOccurs()
    ensures exists run ::
              && ValidRun(run) && Final(run).Some? && Final(run).value.key.kind == CloudServer
              && Final(run).value.status.phase == Created && Final(run).value.spec == LARGER_SPEC
              && Final(run).value.status.observedGeneration == Final(run).value.generation == 2
              && LastSent(run) == Some(Sent(1, FIRST_SPEC)) && !EditMissed(run)
  {
    hide Reconcile;
    var run0 := ReachUpdating(CloudServer, LARGER_SPEC);
    var o, env := Final(run0).value, Fine(NoResponse);
    VolumeAgreement.SmoothUpdating(o, env);
    ObservedServerSendsNothing(o, env);
    ExtendValid(run0, Step(env));
    var run1 := Extend(run0, Step(env));
    assert LastSent(run1) == LastSent(run0) && !EditMissed(run1);
  }

  lemma IpUpdateStep(o: Object, env: Env)
    requires o.key.kind == CloudServer && o.status.phase == Updating && o.spec == IP_SPEC && !o.deleting
    requires o.status.phaseStartTime == Some(0) && o.status.observedGeneration != o.generation
    requires o.status.dataVolumeIDs == [] && env == Fine(Response(200, Empty))
    ensures var out := Reconcile(o, env);
            && |out.calls| == 1 && out.calls[0].call.Put? && out.calls[0].Acknowledged()
            && out.calls[0].call.links.elasticIpID == "id"
            && out.post.Some? && out.post.value.status.phase == Created && out.write.Landed?
            && out.post.value.key == o.key
  {
    hide Create, Provision, Steady, Delete, Initialize, PathOf, Conditions.Updated;
    assert ResolveAttachments(IP_SPEC, Places(), o.status.links).Some?;
    assert AllResolve(Places(), BlockStorage, IP_SPEC.dataVolumes);
  }

  /** A server whose elastic IP is set while it is Updating sends the identifier, has it
      acknowledged, and is Created without it. */
  lemma ElasticIpIsForgotten()
    ensures exists run, x ::
              && ValidRun(run) && Final(run).Some? && run != [] && x in Latest(run).out.calls
              && x.call.Put? && x.Acknowledged() && x.call.links.elasticIpID == "id"
              && Final(run).value.status.phase == Created
              && Final(run).value.status.links.elasticIpID == ""
  {
    hide Reconcile;
    var run0 := ReachUpdating(CloudServer, LARGER_SPEC);
    SpecsDiffer();
    ExtendValid(run0, Edit(IP_SPEC));
    var run1 := Extend(run0, Edit(IP_SPEC));
    var o, env := Final(run1).value, Fine(Response(200, Empty));
    IpUpdateStep(o, env);
    var x := Reconcile(o, env).calls[0];
    ServerUpdates.ServerUpdateForgetsElasticIp(o, env, x);
    ExtendValid(run1, Step(env));
    assert x in Latest(Extend(run1, Step(env))).out.calls;
  }

  lemma FailedPollLands(o: Object)
    requires o.status.phase == Provisioning && !o.deleting && o.status.phaseStartTime == Some(0)
    requires o.key.kind != Project && o.spec.tenant == "t"
    ensures Lands(o, Fine(Reports(RemoteFailed)), Failed)
  {
    hide Initialize, Create, Update, Steady, Delete, PathOf;
  }

  /** Synchronized can be True in phase Failed and in phase Provisioning ... */
  lemma TrueWithoutCreated(kind: Kind, phase: Phase)
    requires kind != Project && phase in {Provisioning, Failed}
    ensures exists run ::
              && ValidRun(run) && Final(run).Some? && Final(run).value.key.kind == kind
              && Final(run).value.status.phase == phase && SynchronizedTrue(Final(run).value)
  {
    hide Reconcile;
    var run0 := Reach(kind, Provisioning);
    var env := Fine(Reports(if phase == Failed then RemoteFailed else InCreation));
    if phase == Failed { FailedPollLands(Final(run0).value); } else { RetryProvisioning(Final(run0).value, env); }
    PollSetsTrue(Final(run0).value, env);
    StepWrites(Final(run0).value, env);
    ExtendValid(run0, Step(env));
    assert Final(Extend(run0, Step(env))).value.status.phase == phase;
  }

  /** ... and a Created server need not have it True. */
  lemma CreatedWithoutTrue()
    ensures exists run ::
              && ValidRun(run) && Final(run).Some? && Final(run).value.key.kind == CloudServer
              && Final(run).value.status.phase == Created && !SynchronizedTrue(Final(run).value)
  {
    hide Reconcile, SynchronizedTrue;
    var run := StaysOccur(CloudServer, Created);
    EarlierValid(run);
    var o, env := Latest(run).pre.value, Latest(run).act.env;
    StepWrites(o, env);
    StepKeepsMetadata(o, env);
    CreatedButNotTrue(run);
  }

  // ---------- volumes that resolve differently ----------

  /** The data volume's object is replaced by one with another identifier. */
  function Moving(id: string): Env { Fine(NoResponse).(refs := map[Key(BlockStorage, HOME) := id]) }

  /** A server at rest with one volume on record, after `n` passes through Updating. */
  predicate AtRest(run: seq<Turn>, id: string, n: nat) {
    && ValidRun(run) && Final(run).Some?
    && var o := Final(run).value;
       && o.key.kind == CloudServer && o.spec == VOLUME_SPEC && !o.deleting
       && o.status.phase == Created && o.status.observedGeneration == o.generation
       && Volumes.Elements(o.status.dataVolumeIDs) == {id}
       && Progress.EntriesIntoUpdating(run) == n && Progress.Edits(run) == 1
  }

  lemma MovingResolves(o: Object, id: string)
    requires o.spec == VOLUME_SPEC && id != ""
    ensures AllResolve(Moving(id).refs, BlockStorage, o.spec.dataVolumes)
    ensures Volumes.Elements(VolumeAgreement.Desired(o, Moving(id))) == {id}
  {
    assert VolumeAgreement.Desired(o, Moving(id)) == [id];
  }

  /** One more pass, without an edit. */
  lemma MovingPass(run: seq<Turn>, to: string, n: nat) returns (run': seq<Turn>)
    requires ValidRun(run) && Final(run).Some?
    requires var o := Final(run).value;
             && o.key.kind == CloudServer && o.spec == VOLUME_SPEC && !o.deleting
             && o.status.phase == Created && to != "" && Volumes.Elements(o.status.dataVolumeIDs) != {to}
             && Progress.EntriesIntoUpdating(run) == n && Progress.Edits(run) == 1
    ensures AtRest(run', to, n + 1)
  {
    hide Reconcile, Volumes.Elements, VolumeAgreement.Desired, VolumeAgreement.Quiet, AllResolve;
    var env := Moving(to);
    var o := Final(run).value;
    MovingResolves(o, to);
    VolumeAgreement.SmoothCreated(o, env);
    ExtendValid(run, Step(env));
    var run1 := Extend(run, Step(env));
    var updating := Final(run1).value;
    MovingResolves(updating, to);
    VolumeAgreement.SmoothUpdating(updating, env);
    ExtendValid(run1, Step(env));
    run' := Extend(run1, Step(env));
    MovingResolves(Final(run').value, to);
    assert Progress.EntriesIntoUpdating(run1) == n + 1 && Progress.Edits(run1) == 1;
    assert Progress.EntriesIntoUpdating(run') == n + 1 && Progress.Edits(run') == 1;
    assert Volumes.Elements(Final(run').value.status.dataVolumeIDs) == {to};
  }

  lemma {:induction false} Cycles(n: nat) returns (run: seq<Turn>, id: string)
    ensures AtRest(run, id, n + 1) && id in {"id", "other"}
  {
    hide Reconcile;
    assert "id" != "other" by { assert |"id"| != |"other"|; }
    if n == 0 {
      var run0 := ReachCreateAnswered(CloudServer, Active);
      SpecsDiffer();
      ExtendValid(run0, Edit(VOLUME_SPEC));
      var run1 := Extend(run0, Edit(VOLUME_SPEC));
      assert Progress.Edits(run1) == 1 && Progress.EntriesIntoUpdating(run1) == 0;
      id := "id";
      assert id in {id} && id !in Volumes.Elements(Final(run1).value.status.dataVolumeIDs);
      run := MovingPass(run1, id, 0);
    } else {
      var earlier, from := Cycles(n - 1);
      id := if from == "id" then "other" else "id";
      assert from in {from} && from !in {id};
      run := MovingPass(earlier, id, n);
    }
  }

  /** Without stable references the bound fails: after one edit, a server can go through
      Updating any number of times. */
  lemma ServerCanCycle(n: nat)
    ensures exists run ::
              && ValidRun(run) && Final(run).Some? && Final(run).value.key.kind == CloudServer
              && Progress.Edits(run) == 1 && Progress.EntriesIntoUpdating(run) == n + 1
  {
    hide Reconcile;
    var run, id := Cycles(n);
  }

  // ---------- lost writes ----------

  lemma RejectedCreate(o: Object, env: Env)
    requires o.status.phase == Creating && !o.deleting && Running(o, env) && !env.statusLands
    requires !TimedOut(o.status, env.now) && ResolveForCreate(o.key.kind, o.spec, env.refs).Some?
    requires Classify(POST, env.answer).Ok?
    ensures var out := Reconcile(o, env);
            && out.write.Rejected? && out.post == Some(o) && Identity.CreateIn(out.calls).Some?
  {
    hide Initialize, Provision, Update, Steady, Delete, PathOf, Recorded, ResolveForCreate, FailureMove;
  }

  /** A create whose status write is lost is made again: two remote resources, one on record. */
  lemma ForgottenCreateOccurs(kind: Kind)
    ensures exists run ::
              && ValidRun(run) && Final(run).Some? && Final(run).value.key.kind == kind
              && Final(run).value.status.phase == Created
              && Identity.AcknowledgedCreates(run) == 2 && Identity.ForgottenCreates(run) == 1
  {
    hide Reconcile, ResolveForCreate;
    var run0 := ReachCreating(kind);
    var o, env := Final(run0).value, Fine(Reports(Active));
    FirstSpecResolves(kind);
    RejectedCreate(o, env.(statusLands := false));
    ExtendValid(run0, Step(env.(statusLands := false)));
    var run1 := Extend(run0, Step(env.(statusLands := false)));
    assert Identity.AcknowledgedCreates(run1) == 1 && Identity.ForgottenCreates(run1) == 1;
    CreatingStep(o, env);
    PhaseChangeLands(o, env);
    ExtendValid(run1, Step(env));
    var run2 := Extend(run1, Step(env));
    assert Identity.AcknowledgedCreates(run2) == 2 && Identity.ForgottenCreates(run2) == 1;
  }

  lemma RejectedAttach(o: Object, env: Env)
    requires o.key.kind == CloudServer && o.status.phase == Updating && !o.deleting && o.spec == VOLUME_SPEC
    requires o.status.observedGeneration == o.generation && o.status.dataVolumeIDs == []
    requires o.status.phaseStartTime == Some(0) && env == Fine(NoResponse).(statusLands := false)
    ensures var out := Reconcile(o, env);
            out.post == Some(o) && out.write.Rejected? && VolumeAgreement.AcknowledgesVolumes(out.calls)
  {
    hide Initialize, Create, Provision, Steady, Delete, PathOf, Volumes.Without, Volumes.Elements;
    assert AllResolve(Places(), BlockStorage, o.spec.dataVolumes);
    assert VolumeAgreement.Desired(o, env) == ["id"];
    assert "id" in Volumes.Elements(["id"]) && Volumes.Elements<string>([]) == {} by {
      Volumes.ElementsMember(["id"], "id");
      forall x: string ensures x !in Volumes.Elements<string>([]) { Volumes.ElementsMember([], x); }
    }
    Volumes.DiffReachesDesired(["id"], o.status.dataVolumeIDs);
    var calls := Reconcile(o, env).calls;
    assert calls[0] in calls;
  }

  /** An attach whose status write is lost leaves the record behind the remote server. */
  lemma LostAttachOccurs()
    ensures exists run ::
              && ValidRun(run) && Final(run).Some? && Final(run).value.key.kind == CloudServer
              && VolumeAgreement.Attached(run) != Volumes.Elements(Final(run).value.status.dataVolumeIDs)
  {
    hide Reconcile;
    var run0 := ReachUpdating(CloudServer, VOLUME_SPEC);
    var o, env := Final(run0).value, Fine(NoResponse).(statusLands := false);
    RejectedAttach(o, env);
    VolumeAgreement.StepKeepsAgreement(o, env, {});
    ExtendValid(run0, Step(env));
    var run := Extend(run0, Step(env));
    assert VolumeAgreement.Attached(run) == VolumeAgreement.AttachedAfter({}, Reconcile(o, env).calls);
  }

  // ---------- a create that rests on an unfinished one ----------

  function Entered(log: seq<Fleet.Entry>, key: Key, act: Act, out: Outcome): seq<Fleet.Entry> {
    log + [Fleet.Entry(key, Turn(Fleet.Stored(log, key), act, out))]
  }

  lemma EnteredValid(log: seq<Fleet.Entry>, key: Key, act: Act, out: Outcome)
    requires Fleet.ValidLog(log)
    requires Fleet.EntryOk(log, Fleet.Entry(key, Turn(Fleet.Stored(log, key), act, out)))
    ensures var log' := Entered(log, key, act, out);
            && Fleet.ValidLog(log') && |log'| == |log| + 1 && log'[..|log|] == log
            && Fleet.Stored(log', key) == out.post
            && forall k :: k != key ==> Fleet.Stored(log', k) == Fleet.Stored(log, k)
  {
    hide Reconcile;
    assert Entered(log, key, act, out)[..|log|] == log;
  }

  /** The log only grew by turns of one object. */
  ghost predicate Grown(log: seq<Fleet.Entry>, log': seq<Fleet.Entry>, key: Key) {
    Fleet.ValidLog(log') && forall k :: k != key ==> Fleet.Stored(log', k) == Fleet.Stored(log, k)
  }

  /** The step can read what is stored before the object itself has an entry. */
  lemma ReadsStill(log: seq<Fleet.Entry>, log': seq<Fleet.Entry>, key: Key, refs: map<Key, string>)
    requires Fleet.ReadsStore(log, refs) && Fleet.Stored(log, key).None? && Grown(log, log', key)
    ensures Fleet.ReadsStore(log', refs)
  {
  }

  /** An object is born and initialised ... */
  lemma Raise(log: seq<Fleet.Entry>, kind: Kind, env: Env) returns (log': seq<Fleet.Entry>)
    requires Fleet.ValidLog(log) && Fleet.ReadsStore(log, env.refs) && Fleet.Stored(log, Key(kind, HOME)).None?
    requires env == Fine(env.answer).(refs := env.refs)
    ensures Grown(log, log', Key(kind, HOME)) && Fleet.Stored(log', Key(kind, HOME)).Some?
    ensures var o := Fleet.Stored(log', Key(kind, HOME)).value;
            && o.key == Key(kind, HOME) && o.spec == FIRST_SPEC && !o.deleting
            && o.status.phase == Creating && o.status.phaseStartTime == Some(0)
  {
    hide Reconcile, Fleet.ReadsStore;
    var key := Key(kind, HOME);
    var o := Object(key, FIRST_SPEC, 1, [], false, NO_STATUS);
    var born := Outcome(Some(o), [], NoWrite, DONE);
    EnteredValid(log, key, Born(o), born);
    var log1 := Entered(log, key, Born(o), born);
    ReadsStill(log, log1, key, env.refs);
    InitialStep(o, env);
    EnteredValid(log1, key, Step(env), Reconcile(o, env));
    log' := Entered(log1, key, Step(env), Reconcile(o, env));
  }

  /** ... and created, while what it can read stays as it is. */
  lemma Complete(log: seq<Fleet.Entry>, kind: Kind, env: Env, state: RemoteState) returns (log': seq<Fleet.Entry>)
    requires Fleet.ValidLog(log) && Fleet.ReadsStore(log, env.refs) && Fleet.Stored(log, Key(kind, HOME)).Some?
    requires var o := Fleet.Stored(log, Key(kind, HOME)).value;
             && o.key == Key(kind, HOME) && o.spec == FIRST_SPEC && !o.deleting
             && o.status.phase == Creating && o.status.phaseStartTime == Some(0)
    requires env == Fine(Reports(state)).(refs := env.refs)
    requires ResolveForCreate(kind, FIRST_SPEC, env.refs).Some?
    ensures Grown(log, log', Key(kind, HOME)) && |log'| == |log| + 1 && log'[..|log|] == log
    ensures Fleet.Stored(log', Key(kind, HOME)).Some?
    ensures var o, last := Fleet.Stored(log', Key(kind, HOME)).value, log'[|log|];
            && o.status.resourceID == "id"
            && o.status.phase == (if kind != Project && Underway(state) then Provisioning else Created)
            && last.key == Key(kind, HOME) && Identity.CreateIn(last.turn.out.calls).Some?
            && var call := Identity.CreateIn(last.turn.out.calls).value.call;
               call.spec == FIRST_SPEC && Some(call.links) == ResolveForCreate(kind, FIRST_SPEC, env.refs)
  {
    hide Reconcile, ResolveForCreate, Fleet.ReadsStore;
    var key := Key(kind, HOME);
    var o := Fleet.Stored(log, key).value;
    CreatingStep(o, env);
    EnteredValid(log, key, Step(env), Reconcile(o, env));
    log' := Entered(log, key, Step(env), Reconcile(o, env));
  }

  lemma RaiseAndComplete(log: seq<Fleet.Entry>, kind: Kind, refs: map<Key, string>, state: RemoteState)
    returns (before: seq<Fleet.Entry>, log': seq<Fleet.Entry>)
    requires Fleet.ValidLog(log) && Fleet.ReadsStore(log, refs)
    requires Fleet.Stored(log, Key(kind, HOME)).None? && ResolveForCreate(kind, FIRST_SPEC, refs).Some?
    ensures Grown(log, before, Key(kind, HOME)) && Grown(log, log', Key(kind, HOME))
    ensures |log'| == |before| + 1 && log'[..|before|] == before
    ensures Fleet.Stored(log', Key(kind, HOME)).Some?
    ensures var o, last := Fleet.Stored(log', Key(kind, HOME)).value, log'[|before|];
            && o.status.resourceID == "id"
            && o.status.phase == (if kind != Project && Underway(state) then Provisioning else Created)
            && last.key == Key(kind, HOME) && Identity.CreateIn(last.turn.out.calls).Some?
            && var call := Identity.CreateIn(last.turn.out.calls).value.call;
               call.spec == FIRST_SPEC && Some(call.links) == ResolveForCreate(kind, FIRST_SPEC, refs)
  {
    hide Reconcile, ResolveForCreate, Fleet.ReadsStore, Fleet.ValidLog, Fleet.Stored;
    var env := Fine(Reports(state)).(refs := refs);
    before := Raise(log, kind, env);
    ReadsStill(log, before, Key(kind, HOME), refs);
    log' := Complete(before, kind, env, state);
  }

  /** A reference resolves as soon as its object has an identifier: a subnet can be created in a
      Vpc that is still Provisioning. */
  lemma UnfinishedDependencyOccurs()
    ensures exists log: seq<Fleet.Entry> ::
              && Fleet.ValidLog(log) && log != []
              && var last := log[|log|-1];
                 && last.key.kind == Subnet && Identity.CreateIn(last.turn.out.calls).Some?
                 && var call := Identity.CreateIn(last.turn.out.calls).value.call;
                    var vpc := Fleet.Stored(log[..|log|-1], Key(Vpc, call.spec.vpc));
                    && vpc.Some? && vpc.value.status.resourceID == call.links.vpcID
                    && vpc.value.status.phase == Provisioning
  {
    var inProject := map[Key(Project, HOME) := "id"];
    var inVpc := inProject[Key(Vpc, HOME) := "id"];
    hide Reconcile;
    assert Fleet.ReadsStore([], map[]) && ResolveForCreate(Project, FIRST_SPEC, map[]).Some?;
    var before1, log1 := RaiseAndComplete([], Project, map[], Active);
    assert ResolveForCreate(Vpc, FIRST_SPEC, inProject).Some?;
    var before2, log2 := RaiseAndComplete(log1, Vpc, inProject, InCreation);
    assert ResolveForCreate(Subnet, FIRST_SPEC, inVpc).value.vpcID == "id";
    var before3, log3 := RaiseAndComplete(log2, Subnet, inVpc, Active);
    assert log3[..|log3|-1] == before3;
  }
}
