/** What the remote cloud was last told. */
module Convergence {
  import opened Api
  import opened Engine
  import opened Steps
  import opened Runs
  import Conditions

  /** A create or update request that was acknowledged: the spec it carried, and the
      generation of the object it was built from. */
  datatype Sent = Sent(generation: int, spec: Spec)

  /** A step sends at most one of these, before any attach/detach. */
  function SentIn(pre: Object, calls: seq<Exchange>): Option<Sent> {
    if calls != [] && calls[0].Acknowledged() && (calls[0].call.Post? || calls[0].call.Put?)
    then Some(Sent(pre.generation, calls[0].call.spec)) else None
  }

  function LastSent(run: seq<Turn>): Option<Sent> {
    if run == [] then None
    else
      var t := Latest(run);
      if t.pre.Some? && SentIn(t.pre.value, t.out.calls).Some? then SentIn(t.pre.value, t.out.calls)
      else LastSent(Earlier(run))
  }

  // ---------- all nine kinds ----------

  /** An edit landed after the last acknowledged create or update. */
  predicate EditUnsent(run: seq<Turn>) {
    run != [] &&
    var t := Latest(run);
    if t.pre.Some? && SentIn(t.pre.value, t.out.calls).Some? then false
    else t.act.Edit? || EditUnsent(Earlier(run))
  }

  /** How the stored object relates to what was sent. */
  predicate Tracks(o: Object, sent: Option<Sent>, unsent: bool) {
    && (sent.Some? ==>
          && sent.value.generation <= o.generation
          && (sent.value.generation == o.generation ==> sent.value.spec == o.spec)
          && (!o.deleting ==> (sent.value.generation == o.generation <==> !unsent)))
    && (o.status.phase in {Provisioning, Created, Updating} ==> sent.Some?)
  }

  lemma PlanTracks(o: Object, env: Env, p: Plan, sent: Option<Sent>, unsent: bool)
    requires Consistent(o) && Fits(o, env, p) && Tracks(o, sent, unsent)
    ensures var out := Perform(o, p, env);
            var now := SentIn(o, out.calls);
            out.post.Some? ==> Tracks(out.post.value, if now.Some? then now else sent, now.None? && unsent)
  {
    hide TimeToNextInterval, PathOf, Recorded, Conditions.Updated, SamePhase, TimedOut;
    if p.calls != [] {
      assert p.calls[0] in p.calls && CallOk(o, p.calls[0].call);
    }
  }

  lemma StepTracks(o: Object, env: Env, sent: Option<Sent>, unsent: bool)
    requires Consistent(o) && Tracks(o, sent, unsent)
    ensures var out := Reconcile(o, env);
            var now := SentIn(o, out.calls);
            out.post.Some? ==> Tracks(out.post.value, if now.Some? then now else sent, now.None? && unsent)
  {
    hide Decide, Tracks, SentIn;
    DecideSound(o, env);
    PlanTracks(o, env, Decide(o, env), sent, unsent);
  }

  lemma {:induction false} RunTracks(run: seq<Turn>)
    requires ValidRun(run) && Final(run).Some?
    ensures Tracks(Final(run).value, LastSent(run), EditUnsent(run))
  {
    hide Reconcile;
    EarlierValid(run);
    var earlier, t := Earlier(run), Latest(run);
    if earlier != [] {
      AlwaysConsistent(earlier);
      RunTracks(earlier);
      if t.act.Step? {
        StepTracks(t.pre.value, t.act.env, LastSent(earlier), EditUnsent(earlier));
      }
    }
  }

  /** Of any kind: once its create has been recorded, an unmarked object's current spec is the
      last one acknowledged exactly when no edit has landed since that acknowledgement.  A
      request that is retried, lost or interleaved never carries an older spec. */
  lemma SentIsCurrentIff(run: seq<Turn>)
    requires ValidRun(run) && Final(run).Some? && !Final(run).value.deleting
    requires Final(run).value.status.phase in {Provisioning, Created, Updating}
    ensures LastSent(run) == Some(Sent(Final(run).value.generation, Final(run).value.spec)) <==> !EditUnsent(run)
  {
    hide Reconcile, LastSent, EditUnsent;
    RunTracks(run);
  }

  // ---------- the eight kinds other than CloudServer ----------

  /** An edit landed while the stored phase was Provisioning, and no create or update has been
      acknowledged since. */
  predicate EditMissed(run: seq<Turn>) {
    run != [] &&
    var t := Latest(run);
    if t.pre.Some? && SentIn(t.pre.value, t.out.calls).Some? then false
    else (t.act.Edit? && t.pre.Some? && t.pre.value.status.phase == Provisioning) || EditMissed(Earlier(run))
  }

  /** The only edits that are still unsent when an object rests are those. */
  predicate Accounted(o: Object, unsent: bool, missed: bool) {
    (o.status.phase == Provisioning && !o.deleting) ||
    (o.status.phase == Created && o.status.observedGeneration == o.generation) ==>
      !o.deleting && (unsent <==> missed)
  }

  lemma PlanAccounted(o: Object, env: Env, p: Plan, unsent: bool, missed: bool)
    requires Consistent(o) && Fits(o, env, p) && o.key.kind != CloudServer
    requires Accounted(o, unsent, missed)
    ensures var out := Perform(o, p, env);
            var now := SentIn(o, out.calls);
            out.post.Some? ==>
              out.post.value.key == o.key && Accounted(out.post.value, now.None? && unsent, now.None? && missed)
  {
    hide TimeToNextInterval, PathOf, Conditions.Updated;
    if p.calls != [] {
      assert p.calls[0] in p.calls && CallOk(o, p.calls[0].call);
    }
  }

  lemma StepAccounted(o: Object, env: Env, unsent: bool, missed: bool)
    requires Consistent(o) && o.key.kind != CloudServer
    requires Accounted(o, unsent, missed)
    ensures var out := Reconcile(o, env);
            var now := SentIn(o, out.calls);
            out.post.Some? ==>
              out.post.value.key == o.key && Accounted(out.post.value, now.None? && unsent, now.None? && missed)
  {
    hide Decide, Accounted, SentIn;
    DecideSound(o, env);
    PlanAccounted(o, env, Decide(o, env), unsent, missed);
  }

  lemma {:induction false} RunAccounted(run: seq<Turn>)
    requires ValidRun(run) && Final(run).Some? && Final(run).value.key.kind != CloudServer
    ensures Accounted(Final(run).value, EditUnsent(run), EditMissed(run))
  {
    hide Reconcile;
    EarlierValid(run);
    var earlier, t := Earlier(run), Latest(run);
    if earlier != [] {
      AlwaysConsistent(earlier);
      if t.act.Step? {
        StepKeepsMetadata(t.pre.value, t.act.env);
        RunAccounted(earlier);
        StepAccounted(t.pre.value, t.act.env, EditUnsent(earlier), EditMissed(earlier));
      } else {
        RunAccounted(earlier);
      }
    }
  }

  /** An object that is Created with its generation observed has had the spec of that
      generation sent and acknowledged if and only if no edit slipped in while it was
      Provisioning. */
  lemma SpecConvergence(run: seq<Turn>)
    requires ValidRun(run) && Final(run).Some? && Final(run).value.key.kind != CloudServer
    requires Final(run).value.status.phase == Created
    requires Final(run).value.status.observedGeneration == Final(run).value.generation
    ensures LastSent(run) == Some(Sent(Final(run).value.generation, Final(run).value.spec)) <==> !EditMissed(run)
  {
    hide Reconcile, LastSent, EditUnsent, EditMissed;
    RunAccounted(run);
    SentIsCurrentIff(run);
  }

  lemma {:induction false} NoEditWhileProvisioning(run: seq<Turn>)
    requires forall i :: 0 <= i < |run| && run[i].act.Edit? && run[i].pre.Some? ==>
                           run[i].pre.value.status.phase != Provisioning
    ensures !EditMissed(run)
  {
    if run != [] {
      NoEditWhileProvisioning(Earlier(run));
    }
  }
}
