/** Whole runs of one object: the operator's steps interleaved in any order with what users do.
    A run starts when a user creates the object and is otherwise unrestricted: every answer,
    every lost write and every clock reading is allowed. */
module Runs {
  import opened Api
  import opened Engine
  import opened Steps
  import Conditions

  datatype Act =
    | Born(o: Object)                             // a user creates the object
    | Step(env: Env)                              // the operator reconciles it
    | Edit(spec: Spec)                            // a user changes the spec
    | MarkDeleted                                 // a user deletes the object
    | Refinalize(finalizers: seq<Finalizer>)      // others change their own finalizers

  datatype Turn = Turn(pre: Option<Object>, act: Act, out: Outcome)

  /** The API server starts a new object with an empty status. */
  predicate New(o: Object) {
    o.status == NO_STATUS && o.generation == 1 && !o.deleting
  }

  /** What the API server makes of a user's request.  A changed spec and a deletion mark both
      count as a new generation; an object without finalizers is dropped at once. */
  function Serve(o: Object, act: Act): Option<Object> {
    match act
    case Edit(spec) => Some(o.(spec := spec, generation := o.generation + 1))
    case MarkDeleted =>
      if o.deleting then Some(o) else Purge(o.(deleting := true, generation := o.generation + 1))
    case Refinalize(fs) => Purge(o.(finalizers := fs))
    case _ => Some(o)
  }

  predicate Permitted(o: Object, act: Act) {
    match act
    case Edit(spec) => spec != o.spec
    case MarkDeleted => true
    case Refinalize(fs) => Operator(o.key.kind) in fs <==> o.Guarded()
    case _ => false
  }

  predicate TurnOk(first: bool, before: Option<Object>, t: Turn) {
    && t.pre == before
    && (t.act.Born? <==> first)
    && (first ==> before.None? && New(t.act.o) && t.out == Outcome(Some(t.act.o), [], NoWrite, DONE))
    && (!first ==> before.Some?)
    && (!first && t.act.Step? ==> t.out == Reconcile(before.value, t.act.env))
    && (!first && !t.act.Step? ==>
          && Permitted(before.value, t.act)
          && t.out == Outcome(Serve(before.value, t.act), [], NoWrite, DONE))
  }

  function Before(run: seq<Turn>, i: nat): Option<Object>
    requires i <= |run|
  {
    if i == 0 then None else run[i-1].out.post
  }

  predicate ValidRun(run: seq<Turn>) {
    forall i {:trigger Before(run, i)} :: 0 <= i < |run| ==> TurnOk(i == 0, Before(run, i), run[i])
  }

  /** What the store holds after a run. */
  function Final(run: seq<Turn>): Option<Object> {
    Before(run, |run|)
  }

  function Earlier(run: seq<Turn>): seq<Turn>
    requires run != []
  {
    run[..|run|-1]
  }

  function Latest(run: seq<Turn>): Turn
    requires run != []
  {
    run[|run|-1]
  }

  lemma EarlierValid(run: seq<Turn>)
    requires ValidRun(run) && run != []
    ensures ValidRun(Earlier(run))
    ensures TurnOk(|run| == 1, Final(Earlier(run)), Latest(run))
    ensures Final(run) == Latest(run).out.post
  {
    hide Reconcile;
    forall i | 0 <= i < |Earlier(run)|
      ensures TurnOk(i == 0, Before(Earlier(run), i), Earlier(run)[i])
    {
      assert Earlier(run)[i] == run[i] && Before(Earlier(run), i) == Before(run, i);
    }
    assert Final(Earlier(run)) == Before(run, |run| - 1);
  }

  /** Every prefix of a run is a run. */
  lemma PrefixValid(run: seq<Turn>, n: nat)
    requires ValidRun(run) && n <= |run|
    ensures ValidRun(run[..n]) && Final(run[..n]) == Before(run, n)
    ensures n < |run| ==> TurnOk(n == 0, Before(run, n), run[n])
  {
    hide Reconcile;
    forall i | 0 <= i < n ensures TurnOk(i == 0, Before(run[..n], i), run[..n][i]) {
      assert run[..n][i] == run[i] && Before(run[..n], i) == Before(run, i);
    }
  }

  /** One more turn: the operator's step, or a user's permitted request. */
  function Extend(run: seq<Turn>, act: Act): seq<Turn>
    requires Final(run).Some?
  {
    var o := Final(run).value;
    run + [Turn(Some(o), act, if act.Step? then Reconcile(o, act.env)
                              else Outcome(Serve(o, act), [], NoWrite, DONE))]
  }

  lemma ExtendValid(run: seq<Turn>, act: Act)
    requires ValidRun(run) && Final(run).Some?
    requires act.Step? || Permitted(Final(run).value, act)
    ensures ValidRun(Extend(run, act))
    ensures Earlier(Extend(run, act)) == run && Latest(Extend(run, act)).act == act
    ensures Latest(Extend(run, act)).pre == Final(run)
    ensures Final(Extend(run, act)) == Latest(Extend(run, act)).out.post
    ensures Latest(Extend(run, act)).out == (if act.Step? then Reconcile(Final(run).value, act.env)
                                             else Outcome(Serve(Final(run).value, act), [], NoWrite, DONE))
  {
    hide Reconcile;
    var run' := Extend(run, act);
    forall i | 0 <= i < |run'| ensures TurnOk(i == 0, Before(run', i), run'[i]) {
      if i < |run| {
        assert run'[i] == run[i] && Before(run', i) == Before(run, i);
        assert TurnOk(i == 0, Before(run, i), run[i]);
      } else {
        assert Before(run', i) == Final(run);
      }
    }
  }

  function Start(o: Object): seq<Turn> {
    [Turn(None, Born(o), Outcome(Some(o), [], NoWrite, DONE))]
  }

  /** The facts about plans, in the form the run lemmas use them. */
  predicate Fits(o: Object, env: Env, p: Plan) {
    if Running(o, env) then Sound(o, env, p) else p == Halt([], ERROR)
  }

  /** A step writes the status and the finalizers at most. */
  lemma StepKeepsMetadata(o: Object, env: Env)
    ensures var out := Reconcile(o, env);
            out.post.Some? ==> && out.post.value == o.(status := out.post.value.status,
                                                       finalizers := out.post.value.finalizers)
  {
    hide Decide;
    DecideSound(o, env);
  }

  // ---------- a stored object, at any time ----------

  predicate Consistent(o: Object) {
    && o.status.phase != Deleted
    && (o.status.phase == Deleting ==> o.deleting)
    && (o.status.phase in {Creating, Provisioning, Created, Updating} ==>
          Finalizer.Operator(o.key.kind) in o.finalizers)
    && (o.key.kind == Project ==> o.status.phase != Provisioning)
    && (o.status.phase in {Initial, Creating} ==>
          o.status.resourceID == "" && o.status.links == NO_LINKS && o.status.dataVolumeIDs == [])
    && (o.status.phase != Initial ==> o.status.phaseStartTime.Some? && 1 <= o.status.observedGeneration)
    && 0 <= o.status.observedGeneration <= o.generation && 1 <= o.generation
  }

  lemma PlanKeepsConsistent(o: Object, env: Env, p: Plan)
    requires Consistent(o) && Fits(o, env, p)
    ensures Perform(o, p, env).post.Some? ==> Consistent(Perform(o, p, env).post.value)
  {
    hide TimeToNextInterval, PathOf, CallsOk, Conditions.Updated;
  }

  lemma StepKeepsConsistent(o: Object, env: Env)
    requires Consistent(o)
    ensures Reconcile(o, env).post.Some? ==> Consistent(Reconcile(o, env).post.value)
  {
    hide Decide;
    DecideSound(o, env);
    PlanKeepsConsistent(o, env, Decide(o, env));
  }

  /** Every stored state of every run: the finalizer is on in every phase in which a remote
      resource may be on record, Deleting needs a deletion mark, Deleted is never stored, a
      Project never provisions, and nothing is on record before Creating has been left. */
  lemma {:induction false} AlwaysConsistent(run: seq<Turn>)
    requires ValidRun(run)
    ensures Final(run).Some? ==> Consistent(Final(run).value)
  {
    hide Reconcile;
    if run != [] {
      EarlierValid(run);
      AlwaysConsistent(Earlier(run));
      var t := Latest(run);
      if t.act.Step? {
        StepKeepsConsistent(t.pre.value, t.act.env);
      }
    }
  }
}
