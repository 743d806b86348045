/** Progress of the whole lifecycle when the remote cloud cooperates: from a new object to a
    created resource, from an edit to an updated one, and from a deletion mark to an object that
    is gone. */
module Lifecycle {
  import opened Api
  import opened Helper
  import opened Engine
  import opened Steps
  import opened Runs
  import opened Volumes
  import Conditions

  /** A step that reads, authenticates and gets its writes through. */
  predicate Unhindered(o: Object, env: Env) {
    Running(o, env) && env.metaLands && env.statusLands
  }

  lemma InitialStep(o: Object, env: Env)
    requires o.status.phase == Initial && !o.deleting && Unhindered(o, env)
    ensures var out := Reconcile(o, env);
            && out.calls == [] && out.post.Some?
            && out.post.value == o.(status := out.post.value.status, finalizers := out.post.value.finalizers)
            && out.post.value.Guarded() && out.post.value.status.phase == Creating
            && out.post.value.status.phaseStartTime == Some(env.now)
            && out.post.value.status.links == o.status.links
            && out.post.value.status.dataVolumeIDs == o.status.dataVolumeIDs
  {
    hide Create, Provision, Update, Steady, Delete, Conditions.Updated;
  }

  /** A remote resource that is still on its way, or ready. */
  predicate Underway(state: RemoteState) { state.InCreation? || state.BeingProvisioned? }

  predicate Usable(state: RemoteState) { state.Available? || state.Active? || state.NotUsed? || state.Used? }

  lemma CreatingStep(o: Object, env: Env)
    requires o.status.phase == Creating && !o.deleting && Unhindered(o, env) && !TimedOut(o.status, env.now)
    requires ResolveForCreate(o.key.kind, o.spec, env.refs).Some? && Classify(POST, env.answer).Ok?
    ensures var out := Reconcile(o, env);
            var links := ResolveForCreate(o.key.kind, o.spec, env.refs).value;
            var underway := o.key.kind != Project && Underway(Classify(POST, env.answer).state);
            && out.calls == [Exchange(Post(PathOf(o.key.kind, links, ""), o.spec, links), env.answer)]
            && out.post.Some? && out.post.value == o.(status := out.post.value.status)
            && out.post.value.status.phase == (if underway then Provisioning else Created)
            && out.post.value.status.resourceID == Classify(POST, env.answer).id
            && out.post.value.status.observedGeneration == o.generation
            && out.post.value.status.phaseStartTime == Some(env.now)
            && out.post.value.status.links == Recorded(o.key.kind, o.status.links, links)
            && out.post.value.status.dataVolumeIDs == o.status.dataVolumeIDs
  {
    hide Initialize, Provision, Update, Steady, Delete, PathOf, Recorded, Conditions.Updated;
    hide ResolveForCreate, FailureMove;
  }

  lemma ProvisioningStep(o: Object, env: Env)
    requires o.status.phase == Provisioning && !o.deleting && Unhindered(o, env) && !TimedOut(o.status, env.now)
    requires o.key.kind != Project
    requires Classify(GET, env.answer).Ok? && Usable(Classify(GET, env.answer).state)
    ensures var out := Reconcile(o, env);
            && out.calls == [Exchange(Get(Address(o)), env.answer)]
            && out.post.Some? && out.post.value == o.(status := out.post.value.status)
            && out.post.value.status.phase == Created
            && out.post.value.status.resourceID == o.status.resourceID
            && out.post.value.status.observedGeneration == o.generation
            && out.post.value.status.links == o.status.links
  {
    hide Initialize, Create, Update, Steady, Delete, PathOf, Conditions.Updated;
  }

  /** The object is Created with its generation observed and its resource at `home`. */
  predicate CreatedAt(o: Object, home: Path) {
    && o.Guarded() && o.status.phase == Created
    && o.status.observedGeneration == o.generation && Address(o) == home
  }

  /** A new object of any kind whose references resolve is Created after two unhindered steps,
      or after three when its create is answered with a state that is still on its way, which
      a Project's never waits for.  One create goes out, the poll addresses the resource it
      made, and the status names that resource. */
  lemma CreationCompletes(o: Object, env1: Env, env2: Env, env3: Env)
    requires New(o) && Unhindered(o, env1) && Unhindered(o, env2)
    requires ResolveForCreate(o.key.kind, o.spec, env2.refs).Some? && Classify(POST, env2.answer).Ok?
    requires env2.now - env1.now <= MAX_PHASE_TIMEOUT
    requires o.key.kind != Project && Underway(Classify(POST, env2.answer).state) ==>
               && Unhindered(o, env3) && env3.now - env2.now <= MAX_PHASE_TIMEOUT
               && Classify(GET, env3.answer).Ok? && Usable(Classify(GET, env3.answer).state)
    ensures var out1 := Reconcile(o, env1);
            out1.post.Some? && out1.calls == [] &&
            var out2 := Reconcile(out1.post.value, env2);
            out2.post.Some? && |out2.calls| == 1 && Creates(out2.calls[0]) &&
            var home := out2.calls[0].call.Target().(resourceID := out2.calls[0].Reply().id);
            if o.key.kind == Project || !Underway(Classify(POST, env2.answer).state)
            then CreatedAt(out2.post.value, home)
            else var out3 := Reconcile(out2.post.value, env3);
                 && out3.calls == [Exchange(Get(home), env3.answer)]
                 && out3.post.Some? && CreatedAt(out3.post.value, home)
  {
    hide Reconcile, ResolveForCreate;
    InitialStep(o, env1);
    var creating := Reconcile(o, env1).post.value;
    CreatingStep(creating, env2);
    if o.key.kind != Project && Underway(Classify(POST, env2.answer).state) {
      ProvisioningStep(Reconcile(creating, env2).post.value, env3);
    }
  }

  /** The step only enters Updating. */
  predicate Starts(o: Object, env: Env) {
    var out := Reconcile(o, env);
    && out.calls == [] && out.post.Some?
    && out.post.value == o.(status := out.post.value.status)
    && out.post.value.status.phase == Updating
    && out.post.value.status.phaseStartTime == Some(env.now)
    && out.post.value.status.observedGeneration == o.generation
    && out.post.value.status.dataVolumeIDs == o.status.dataVolumeIDs
    && out.post.value.status.resourceID == o.status.resourceID && out.post.value.status.links == o.status.links
  }

  lemma EditedStep(o: Object, env: Env)
    requires o.key.kind != CloudServer && o.status.phase == Created && !o.deleting && Unhindered(o, env)
    requires o.status.observedGeneration != o.generation
    ensures Starts(o, env)
  {
    hide Create, Provision, Update, Delete, Initialize, Conditions.Updated;
  }

  lemma UpdatingStep(o: Object, env: Env)
    requires o.key.kind != CloudServer && o.status.phase == Updating && !o.deleting
    requires Unhindered(o, env) && !TimedOut(o.status, env.now) && Classify(PUT, env.answer).Ok?
    ensures var out := Reconcile(o, env);
            && out.calls == [Exchange(Put(Address(o), o.spec, o.status.links), env.answer)]
            && out.post.Some? && out.post.value == o.(status := out.post.value.status)
            && out.post.value.status.phase == Created
            && out.post.value.status.observedGeneration == o.generation
            && Address(out.post.value) == Address(o)
  {
    hide Create, Provision, Steady, Delete, Initialize, PathOf, Conditions.Updated;
  }

  /** An edited Created object of the eight kinds has exactly its new spec sent, to its own
      resource, and is Created again with the edit observed after two unhindered steps. */
  lemma UpdateCompletes(o: Object, spec: Spec, env1: Env, env2: Env)
    requires Consistent(o) && o.key.kind != CloudServer && o.status.phase == Created && !o.deleting
    requires Permitted(o, Edit(spec))
    requires Unhindered(o.(spec := spec), env1) && Unhindered(o.(spec := spec), env2)
    requires env2.now - env1.now <= MAX_PHASE_TIMEOUT && Classify(PUT, env2.answer).Ok?
    ensures var edited := Serve(o, Edit(spec)).value;
            var out1 := Reconcile(edited, env1);
            out1.post.Some? && out1.calls == [] &&
            var out2 := Reconcile(out1.post.value, env2);
            && out2.calls == [Exchange(Put(Address(o), spec, o.status.links), env2.answer)]
            && out2.post.Some? && out2.post.value.spec == spec && CreatedAt(out2.post.value, Address(o))
  {
    hide Reconcile, Classify;
    var edited := Serve(o, Edit(spec)).value;
    EditedStep(edited, env1);
    UpdatingStep(Reconcile(edited, env1).post.value, env2);
  }

  lemma MarkedStep(o: Object, env: Env)
    requires o.deleting && o.status.phase !in {Deleting, Failed}
    requires Unhindered(o, env) && !TimedOut(o.status, env.now)
    ensures var out := Reconcile(o, env);
            && out.calls == [] && out.post.Some?
            && out.post.value == o.(status := out.post.value.status)
            && out.post.value.status.phase == Deleting
            && out.post.value.status.phaseStartTime == Some(env.now)
            && Address(out.post.value) == Address(o)
  {
    hide Handle, Conditions.Updated;
  }

  /** A DELETE answered with success, or with 404 or 405 because the resource is not there (any
      more), takes the finalizer off. */
  lemma DeletingStep(o: Object, env: Env)
    requires o.status.phase == Deleting && o.deleting && o.Guarded()
    requires Unhindered(o, env) && !TimedOut(o.status, env.now)
    requires env.answer.Response? && !env.answer.body.Unreadable?
    requires env.answer.code in {200, 201, 202, 204, 404, 405}
    ensures var out := Reconcile(o, env);
            && out.calls == [Exchange(Remove(Address(o)), env.answer)]
            && (out.post.None? <==> forall f :: f in o.finalizers ==> f == Operator(o.key.kind))
            && (out.post.Some? ==> out.post.value == o.(finalizers := out.post.value.finalizers)
                                   && !out.post.value.Guarded())
  {
    hide Initialize, Create, Provision, Update, Steady, PathOf, Conditions.Updated;
    WithoutMembers(o.finalizers, [Operator(o.key.kind)]);
    var rest := Without(o.finalizers, [Operator(o.key.kind)]);
    if rest != [] {
      assert rest[0] in rest;
    }
  }

  /** A marked object that carries no foreign finalizer is gone after two unhindered steps,
      which send exactly one request: the DELETE of the resource its status names. */
  lemma DeletionCompletes(o: Object, env1: Env, env2: Env)
    requires o.deleting && o.finalizers == [Operator(o.key.kind)]
    requires o.status.phase !in {Deleting, Failed} && !TimedOut(o.status, env1.now)
    requires Unhindered(o, env1) && Unhindered(o, env2)
    requires env2.now - env1.now <= MAX_PHASE_TIMEOUT
    requires env2.answer.Response? && !env2.answer.body.Unreadable?
    requires env2.answer.code in {200, 201, 202, 204, 404, 405}
    ensures var out1 := Reconcile(o, env1);
            out1.calls == [] && out1.post.Some? &&
            Reconcile(out1.post.value, env2).calls == [Exchange(Remove(Address(o)), env2.answer)] &&
            Reconcile(out1.post.value, env2).post == None
  {
    hide Reconcile;
    MarkedStep(o, env1);
    DeletingStep(Reconcile(o, env1).post.value, env2);
  }
}
