/** Bounds on how much a run can do: no livelock between Created and Updating, and how the
    observed generation keeps count. */
module Progress {
  import opened Api
  import opened Engine
  import opened Steps
  import opened Runs
  import opened Volumes
  import opened VolumeAgreement
  import Conditions

  function Edits(run: seq<Turn>): nat {
    if run == [] then 0 else Edits(Earlier(run)) + if Latest(run).act.Edit? then 1 else 0
  }

  predicate EntersUpdating(t: Turn) {
    && t.pre.Some? && t.out.post.Some?
    && t.pre.value.status.phase != Updating && t.out.post.value.status.phase == Updating
  }

  predicate ChangesPhase(t: Turn) {
    && t.pre.Some? && t.out.post.Some?
    && t.pre.value.status.phase != t.out.post.value.status.phase
  }

  function EntriesIntoUpdating(run: seq<Turn>): nat {
    if run == [] then 0 else EntriesIntoUpdating(Earlier(run)) + if EntersUpdating(Latest(run)) then 1 else 0
  }

  function PhaseChanges(run: seq<Turn>): nat {
    if run == [] then 0 else PhaseChanges(Earlier(run)) + if ChangesPhase(Latest(run)) then 1 else 0
  }

  /** Phase changes a run can have made when it is in a phase, beyond two per Updating entry. */
  function Budget(p: Phase): nat {
    match p
    case Initial => 0
    case Creating => 1
    case Provisioning => 2
    case Updating => 2
    case Created => 3
    case Deleting => 4
    case Failed => 5
    case Deleted => 5
  }

  /** The measure: while an object is not marked deleted, every entry into Updating has used up
      one generation that is observed now. */
  predicate Measured(o: Object, edits: nat, entries: nat, changes: nat) {
    && entries <= edits
    && (!o.deleting ==> o.generation == edits + 1
                        && (entries == 0 || entries < o.status.observedGeneration))
    && changes <= 2 * entries + Budget(o.status.phase)
  }

  lemma PlanMeasured(o: Object, env: Env, p: Plan, edits: nat, entries: nat, changes: nat)
    requires Consistent(o) && Fits(o, env, p) && o.key.kind != CloudServer
    requires Measured(o, edits, entries, changes)
    ensures var out := Perform(o, p, env);
            out.post.Some? ==>
              var entered := if o.status.phase != Updating && out.post.value.status.phase == Updating then 1 else 0;
              var changed := if o.status.phase != out.post.value.status.phase then 1 else 0;
              Measured(out.post.value, edits, entries + entered, changes + changed)
  {
    hide TimeToNextInterval, PathOf, CallsOk, Conditions.Updated;
  }

  lemma StepMeasured(o: Object, env: Env, edits: nat, entries: nat, changes: nat)
    requires Consistent(o) && o.key.kind != CloudServer
    requires Measured(o, edits, entries, changes)
    ensures var out := Reconcile(o, env);
            out.post.Some? ==>
              var entered := if o.status.phase != Updating && out.post.value.status.phase == Updating then 1 else 0;
              var changed := if o.status.phase != out.post.value.status.phase then 1 else 0;
              Measured(out.post.value, edits, entries + entered, changes + changed)
  {
    hide Decide;
    DecideSound(o, env);
    PlanMeasured(o, env, Decide(o, env), edits, entries, changes);
  }

  lemma {:induction false} RunMeasured(run: seq<Turn>)
    requires ValidRun(run) && Final(run).Some? && Final(run).value.key.kind != CloudServer
    ensures Measured(Final(run).value, Edits(run), EntriesIntoUpdating(run), PhaseChanges(run))
  {
    hide Reconcile;
    EarlierValid(run);
    var earlier, t := Earlier(run), Latest(run);
    if earlier != [] {
      AlwaysConsistent(earlier);
      if t.act.Step? {
        StepKeepsMetadata(t.pre.value, t.act.env);
        RunMeasured(earlier);
        StepMeasured(t.pre.value, t.act.env, Edits(earlier), EntriesIntoUpdating(earlier), PhaseChanges(earlier));
      } else {
        RunMeasured(earlier);
      }
    }
  }

  /** However often it is reconciled, whatever is answered and lost: an object enters Updating
      at most once per landed edit of its spec, and a run with E edits makes at most 2E + 5
      phase changes. */
  lemma NoLivelock(run: seq<Turn>)
    requires ValidRun(run) && Final(run).Some? && Final(run).value.key.kind != CloudServer
    ensures EntriesIntoUpdating(run) <= Edits(run)
    ensures PhaseChanges(run) <= 2 * Edits(run) + 5
  {
    hide Reconcile, EntriesIntoUpdating, PhaseChanges, Edits;
    RunMeasured(run);
  }

  // ---------- the ninth kind ----------

  /** The data volume references of every step resolve as they do in `refs`. */
  ghost predicate SameLookups(here: map<Key, string>, refs: map<Key, string>) {
    forall r :: Lookup(here, BlockStorage, r) == Lookup(refs, BlockStorage, r)
  }

  ghost predicate Stable(run: seq<Turn>, refs: map<Key, string>) {
    forall i :: 0 <= i < |run| && run[i].act.Step? ==> SameLookups(run[i].act.env.refs, refs)
  }

  lemma SameVolumes(rs: seq<Reference>, here: map<Key, string>, refs: map<Key, string>)
    requires SameLookups(here, refs)
    ensures AllResolve(here, BlockStorage, rs) <==> AllResolve(refs, BlockStorage, rs)
    ensures AllResolve(refs, BlockStorage, rs) ==>
              LookupAll(here, BlockStorage, rs) == LookupAll(refs, BlockStorage, rs)
  {
    forall i | 0 <= i < |rs| ensures Lookup(here, BlockStorage, rs[i]) == Lookup(refs, BlockStorage, rs[i]) {
    }
  }

  /** The recorded volumes are those the spec asks for. */
  predicate VolumesSettled(o: Object, refs: map<Key, string>) {
    && AllResolve(refs, BlockStorage, o.spec.dataVolumes)
    && Elements(LookupAll(refs, BlockStorage, o.spec.dataVolumes)) == Elements(o.status.dataVolumeIDs)
  }

  /** What makes a Created server go on to Updating. */
  predicate Unsettled(o: Object, refs: map<Key, string>) {
    o.status.observedGeneration != o.generation || !VolumesSettled(o, refs)
  }

  predicate ServerMeasured(o: Object, refs: map<Key, string>, edits: nat, entries: nat, changes: nat) {
    && entries <= edits + 1
    && (o.status.phase in {Initial, Creating, Provisioning} ==> entries == 0)
    && (o.status.phase == Created && !o.deleting && Unsettled(o, refs) ==> entries <= edits)
    && changes <= 2 * entries + Budget(o.status.phase)
  }

  /** A server's plan enters Updating only when unsettled, and leaves it settled. */
  predicate Settles(o: Object, refs: map<Key, string>, p: Plan) {
    p.Go? ==>
      && (o.status.phase == Created && p.move.next == Updating ==> Unsettled(o, refs))
      && (o.status.phase == Created && p.move.next == Created ==> !AllResolve(refs, BlockStorage, o.spec.dataVolumes))
      && (o.status.phase == Updating && p.move.next == Created ==>
            && AllResolve(refs, BlockStorage, o.spec.dataVolumes)
            && Elements(LookupAll(refs, BlockStorage, o.spec.dataVolumes)) == Elements(p.mem.dataVolumeIDs))
  }

  lemma SteadySettles(o: Object, env: Env)
    requires o.key.kind == CloudServer && o.status.phase == Created
    ensures Settles(o, env.refs, Steady(o, env))
  {
    hide FailureMove, Elements;
    if AllResolve(env.refs, BlockStorage, o.spec.dataVolumes) {
      DiffReachesDesired(LookupAll(env.refs, BlockStorage, o.spec.dataVolumes), o.status.dataVolumeIDs);
    }
  }

  lemma DecideSettles(o: Object, env: Env, refs: map<Key, string>)
    requires o.key.kind == CloudServer && SameLookups(env.refs, refs)
    ensures Settles(o, refs, Decide(o, env))
  {
    SameVolumes(o.spec.dataVolumes, env.refs, refs);
    if Running(o, env) && !Interrupted(o, env) && o.status.phase == Created {
      hide Steady;
      SteadySettles(o, env);
    } else {
      hide Decide, AttachedAfter, AcknowledgesVolumes, Elements;
      DecideSound(o, env);
      DecideMoved(o, env, {});
    }
  }

  lemma ServerPlanMeasured(o: Object, env: Env, p: Plan, refs: map<Key, string>,
                           edits: nat, entries: nat, changes: nat)
    requires Consistent(o) && Fits(o, env, p) && Settles(o, refs, p)
    requires ServerMeasured(o, refs, edits, entries, changes)
    ensures var out := Perform(o, p, env);
            out.post.Some? ==>
              var entered := if o.status.phase != Updating && out.post.value.status.phase == Updating then 1 else 0;
              var changed := if o.status.phase != out.post.value.status.phase then 1 else 0;
              ServerMeasured(out.post.value, refs, edits, entries + entered, changes + changed)
  {
    hide TimeToNextInterval, PathOf, CallsOk, Conditions.Updated, LookupAll, AllResolve, Elements;
  }

  lemma ServerStepMeasured(o: Object, env: Env, refs: map<Key, string>, edits: nat, entries: nat, changes: nat)
    requires Consistent(o) && o.key.kind == CloudServer && SameLookups(env.refs, refs)
    requires ServerMeasured(o, refs, edits, entries, changes)
    ensures var out := Reconcile(o, env);
            out.post.Some? ==>
              var entered := if o.status.phase != Updating && out.post.value.status.phase == Updating then 1 else 0;
              var changed := if o.status.phase != out.post.value.status.phase then 1 else 0;
              ServerMeasured(out.post.value, refs, edits, entries + entered, changes + changed)
  {
    hide Decide, ServerMeasured;
    DecideSound(o, env);
    DecideSettles(o, env, refs);
    ServerPlanMeasured(o, env, Decide(o, env), refs, edits, entries, changes);
  }

  lemma {:induction false} ServerRunMeasured(run: seq<Turn>, refs: map<Key, string>)
    requires ValidRun(run) && Stable(run, refs)
    requires Final(run).Some? && Final(run).value.key.kind == CloudServer
    ensures ServerMeasured(Final(run).value, refs, Edits(run), EntriesIntoUpdating(run), PhaseChanges(run))
  {
    hide Reconcile;
    EarlierValid(run);
    var earlier, t := Earlier(run), Latest(run);
    if earlier != [] {
      AlwaysConsistent(earlier);
      assert Stable(earlier, refs) by {
        forall i | 0 <= i < |earlier| && earlier[i].act.Step? ensures SameLookups(earlier[i].act.env.refs, refs) {
          assert run[i] == earlier[i];
        }
      }
      if t.act.Step? {
        StepKeepsMetadata(t.pre.value, t.act.env);
        ServerRunMeasured(earlier, refs);
        assert t == run[|run|-1];
        ServerStepMeasured(t.pre.value, t.act.env, refs,
                           Edits(earlier), EntriesIntoUpdating(earlier), PhaseChanges(earlier));
      } else {
        ServerRunMeasured(earlier, refs);
      }
    }
  }

  /** A CloudServer also compares its data volumes, so it can go back to Updating without an
      edit when they resolve differently.  While they resolve alike in every step, its entries
      into Updating are at most one more than its landed edits. */
  lemma ServerNoLivelock(run: seq<Turn>, refs: map<Key, string>)
    requires ValidRun(run) && Stable(run, refs)
    requires Final(run).Some? && Final(run).value.key.kind == CloudServer
    ensures EntriesIntoUpdating(run) <= Edits(run) + 1
    ensures PhaseChanges(run) <= 2 * (Edits(run) + 1) + 5
  {
    hide Reconcile, EntriesIntoUpdating, PhaseChanges, Edits;
    ServerRunMeasured(run, refs);
  }

  // ---------- the observed generation as a register (all nine kinds) ----------

  /** The generation of the object at the last landed status write, 0 before the first. */
  function LastLandedGeneration(run: seq<Turn>): int {
    if run == [] then 0
    else if Latest(run).out.write.Landed? && Latest(run).pre.Some? then Latest(run).pre.value.generation
    else LastLandedGeneration(Earlier(run))
  }

  function EditsSinceWrite(run: seq<Turn>): nat {
    if run == [] || Latest(run).out.write.Landed? then 0
    else EditsSinceWrite(Earlier(run)) + if Latest(run).act.Edit? then 1 else 0
  }

  lemma StepObserves(o: Object, env: Env)
    ensures var out := Reconcile(o, env);
            out.post.Some? ==>
              && out.post.value.generation == o.generation && out.post.value.deleting == o.deleting
              && out.post.value.status.observedGeneration ==
                   (if out.write.Landed? then o.generation else o.status.observedGeneration)
              && (out.post.value.status.phase == Initial ==> o.status.phase == Initial)
              && (!out.write.Landed? ==> out.post.value.status == o.status)
  {
    hide Decide;
    DecideSound(o, env);
  }

  /** ObservedGeneration is the generation at the last landed write, whatever that write was
      about; on an unmarked object it lags the generation by the edits landed since. */
  lemma {:induction false} ObservedGenerationIsARegister(run: seq<Turn>)
    requires ValidRun(run) && Final(run).Some?
    ensures var o := Final(run).value;
            && o.status.observedGeneration == LastLandedGeneration(run)
            && (!o.deleting ==>
                  o.generation == (if LastLandedGeneration(run) == 0 then 1 else LastLandedGeneration(run))
                                  + EditsSinceWrite(run))
  {
    hide Reconcile;
    EarlierValid(run);
    var earlier, t := Earlier(run), Latest(run);
    if earlier != [] {
      ObservedGenerationIsARegister(earlier);
      AlwaysConsistent(earlier);
      if t.act.Step? {
        StepObserves(t.pre.value, t.act.env);
      }
    }
  }
}
