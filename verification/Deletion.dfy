/** What a deletion mark leaves the operator to do, and where it stops doing anything. */
module Deletion {
  import opened Api
  import opened Engine
  import opened Steps
  import opened Runs

  predicate OnlyRemoves(calls: seq<Exchange>) {
    |calls| <= 1 && forall x :: x in calls ==> x.call.Remove?
  }

  lemma StepOnMarked(o: Object, env: Env)
    requires o.deleting
    ensures OnlyRemoves(Reconcile(o, env).calls)
    ensures Reconcile(o, env).calls != [] ==> o.status.phase == Deleting
  {
    hide Decide;
    DecideSound(o, env);
  }

  /** From the moment an object is marked deleted, in every run, no step sends a create, an
      update, an attach/detach or a status request: the only remote call left is DELETE. */
  lemma {:induction false} DeletionIsQuiet(run: seq<Turn>, i: nat, j: nat)
    requires ValidRun(run) && i < j < |run|
    requires run[i].out.post.Some? && run[i].out.post.value.deleting
    ensures run[j].pre.Some? && run[j].pre.value.deleting
    ensures OnlyRemoves(run[j].out.calls)
    decreases j
  {
    hide Reconcile;
    PrefixValid(run, j);
    if i < j - 1 {
      DeletionIsQuiet(run, i, j - 1);
      PrefixValid(run, j - 1);
      if run[j-1].act.Step? {
        StepKeepsMetadata(run[j-1].pre.value, run[j-1].act.env);
      }
    }
    if run[j].act.Step? {
      StepOnMarked(run[j].pre.value, run[j].act.env);
    }
  }

  lemma StepOnFailed(o: Object, env: Env)
    requires o.status.phase == Failed
    ensures Reconcile(o, env).post == Some(o) && Reconcile(o, env).calls == []
  {
    hide Decide;
    DecideSound(o, env);
  }

  /** Failed is absorbing: after it, whatever users do to the object (delete it, change its
      spec), the operator calls nothing and changes nothing, so an object that failed with the
      operator's finalizer on stays in the cluster. */
  lemma {:induction false} FailedIsStuck(run: seq<Turn>, i: nat, j: nat)
    requires ValidRun(run) && i < j < |run|
    requires run[i].out.post.Some? && run[i].out.post.value.status.phase == Failed
    requires run[i].out.post.value.Guarded()
    ensures run[j].out.calls == [] && run[j].out.post.Some?
    ensures run[j].out.post.value.status == run[i].out.post.value.status
    ensures run[j].out.post.value.Guarded()
    decreases j
  {
    hide Reconcile;
    PrefixValid(run, j);
    if i < j - 1 {
      FailedIsStuck(run, i, j - 1);
    }
    if run[j].act.Step? {
      StepOnFailed(run[j].pre.value, run[j].act.env);
    }
  }
}
