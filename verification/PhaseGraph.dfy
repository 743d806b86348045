/** The lifecycle graph over whole runs: which phase changes are ever stored, and in what order. */
module PhaseGraph {
  import opened Api
  import opened Engine
  import opened Steps
  import opened Runs

  lemma PlanFollowsGraph(o: Object, env: Env, p: Plan)
    requires Fits(o, env, p)
    ensures var out := Perform(o, p, env);
            && (out.write.Landed? ==> out.post.Some? && out.post.value.status.phase == out.write.move.next
                                      && Edge(o.key.kind, o.status.phase, out.write.move.next))
            && (!out.write.Landed? && out.post.Some? ==> out.post.value.status == o.status)
  {
  }

  lemma StepFollowsGraph(o: Object, env: Env)
    ensures var out := Reconcile(o, env);
            && (out.write.Landed? ==> out.post.Some? && out.post.value.status.phase == out.write.move.next
                                      && Edge(o.key.kind, o.status.phase, out.write.move.next))
            && (!out.write.Landed? && out.post.Some? ==> out.post.value.status == o.status)
  {
    hide Decide;
    DecideSound(o, env);
    PlanFollowsGraph(o, env, Decide(o, env));
  }

  /** In every run the status changes only by a landed write of the operator, and every landed
      write follows an edge of the graph of its kind. */
  lemma RunsFollowGraph(run: seq<Turn>, i: nat)
    requires ValidRun(run) && 0 < i < |run|
    ensures var t := run[i];
            && t.pre.Some?
            && (t.out.write.Landed? ==>
                  && t.act.Step? && t.out.post.Some?
                  && t.out.post.value.status.phase == t.out.write.move.next
                  && Edge(t.pre.value.key.kind, t.pre.value.status.phase, t.out.write.move.next)
                  && t.pre.value.status.phase != Deleted && t.out.write.move.next != Deleted)
            && (!t.out.write.Landed? && t.out.post.Some? ==> t.out.post.value.status == t.pre.value.status)
  {
    hide Reconcile;
    PrefixValid(run, i);
    AlwaysConsistent(run[..i]);
    var t := run[i];
    if t.act.Step? {
      StepFollowsGraph(t.pre.value, t.act.env);
    }
  }

  /** How far a phase is along the lifecycle; Created and Updating alternate. */
  function Rank(p: Phase): nat {
    match p
    case Initial => 0
    case Creating => 1
    case Provisioning => 2
    case Created | Updating => 3
    case Deleting => 4
    case Failed => 5
    case Deleted => 6
  }

  /** No run ever goes back: once Creating (or Provisioning, or the Created/Updating cycle, or
      Deleting) has been left, it is not entered again, and nothing leaves Failed. */
  lemma {:induction false} NeverBack(run: seq<Turn>, i: nat, j: nat)
    requires ValidRun(run) && i <= j < |run| && run[j].out.post.Some?
    ensures run[i].out.post.Some?
    ensures Rank(run[i].out.post.value.status.phase) <= Rank(run[j].out.post.value.status.phase)
    ensures run[i].out.post.value.status.phase == Failed ==>
              run[j].out.post.value.status == run[i].out.post.value.status
    decreases j
  {
    hide Reconcile;
    if i < j {
      PrefixValid(run, j);
      NeverBack(run, i, j - 1);
      RunsFollowGraph(run, j);
    }
  }
}
