/** The Synchronized condition over whole runs. */
module Register {
  import opened Api
  import opened Helper
  import opened Engine
  import opened Steps
  import opened Runs
  import Conditions

  /** The turn of the last landed status write. */
  function LastWrite(run: seq<Turn>): (t: Option<Turn>)
    ensures t.Some? ==> t.value.out.write.Landed?
  {
    if run == [] then None
    else if Latest(run).out.write.Landed? then Some(Latest(run))
    else LastWrite(Earlier(run))
  }

  /** The move of the last landed status write. */
  function LastMove(run: seq<Turn>): Option<Move> {
    var t := LastWrite(run);
    if t.None? then None else Some(t.value.out.write.move)
  }

  predicate SameVerdict(m: Option<Move>, m': Move) {
    m.Some? && m.value.cond == m'.cond && m.value.reason == m'.reason
  }

  /** When the verdict that stands was written, not counting rewrites of the same verdict. */
  function VerdictSince(run: seq<Turn>): int {
    if run == [] then 0
    else
      var t := Latest(run);
      if t.out.write.Landed? && t.act.Step? && !SameVerdict(LastMove(Earlier(run)), t.out.write.move)
      then t.act.env.now
      else VerdictSince(Earlier(run))
  }

  predicate Holds(cs: seq<Condition>, m: Option<Move>, since: int) {
    && Conditions.Others(cs, Synchronized) == []
    && match m
       case None => cs == []
       case Some(m) =>
         && Conditions.Occurrences(cs, Synchronized) == 1
         && var c := Conditions.Find(cs, Synchronized);
            c.Some? && c.value.status == m.cond && c.value.reason == m.reason && c.value.lastTransition == since
  }

  lemma WriteHolds(cs: seq<Condition>, held: Option<Move>, since: int, m: Move, text: string, now: int)
    requires Holds(cs, held, since)
    ensures Holds(Conditions.Updated(cs, Synchronized, m.cond, m.reason, text, now), Some(m),
                  if SameVerdict(held, m) then since else now)
  {
    Conditions.UpdatedIsARegister(cs, Synchronized, m.cond, m.reason, text, now);
  }

  lemma StepWrites(o: Object, env: Env)
    ensures var out := Reconcile(o, env);
            && (out.write.Landed? ==>
                  && out.post.Some?
                  && out.post.value.status.conditions ==
                       Conditions.Updated(o.status.conditions, Synchronized, out.write.move.cond,
                                          out.write.move.reason, env.text, env.now)
                  && out.post.value.status.phase == out.write.move.next
                  && MoveOk(o, env, out.write.move))
            && (!out.write.Landed? && out.post.Some? ==> out.post.value.status == o.status)
            && (out.post.Some? ==> out.post.value.key == o.key)
  {
    hide Decide;
    DecideSound(o, env);
  }

  /** Everything a landed write stores besides the identifiers, from the step's own text, clock
      and generation: the entry keeps its message and time only when its verdict is the same. */
  lemma WriteStores(o: Object, env: Env)
    requires Reconcile(o, env).write.Landed?
    ensures var out := Reconcile(o, env);
            && out.post.Some?
            && var st, m := out.post.value.status, out.write.move;
               && st.phase == m.next && st.message == env.text && st.observedGeneration == o.generation
               && (st.phaseStartTime ==
                     if o.status.phase == m.next && m.next != Initial && o.status.phaseStartTime.Some?
                     then o.status.phaseStartTime else Some(env.now))
               && var held := Conditions.Find(o.status.conditions, Synchronized);
                  Conditions.Find(st.conditions, Synchronized) ==
                    if held.Some? && held.value.status == m.cond && held.value.reason == m.reason then held
                    else Some(Condition(Synchronized, m.cond, m.reason, env.text, env.now))
  {
    hide Decide;
    DecideSound(o, env);
    var m := Reconcile(o, env).write.move;
    Conditions.UpdatedIsARegister(o.status.conditions, Synchronized, m.cond, m.reason, env.text, env.now);
  }

  /** In every run the list has at most the one Synchronized entry; its status and reason are
      those of the last landed write, and its transition time is when that verdict first stood. */
  lemma {:induction false} ConditionIsTheLastVerdict(run: seq<Turn>)
    requires ValidRun(run) && Final(run).Some?
    ensures Holds(Final(run).value.status.conditions, LastMove(run), VerdictSince(run))
  {
    hide Reconcile;
    EarlierValid(run);
    var earlier, t := Earlier(run), Latest(run);
    assert earlier == [] ==> LastWrite(earlier) == None;
    if earlier != [] {
      ConditionIsTheLastVerdict(earlier);
      if t.act.Step? {
        StepWrites(t.pre.value, t.act.env);
        if t.out.write.Landed? {
          WriteHolds(t.pre.value.status.conditions, LastMove(earlier), VerdictSince(earlier),
                     t.out.write.move, t.act.env.text, t.act.env.now);
        }
      }
    }
  }

  /** The clock readings of a run's steps do not go back. */
  predicate ClockForward(run: seq<Turn>) {
    forall i, j :: 0 <= i < j < |run| && run[i].act.Step? && run[j].act.Step? ==>
      run[i].act.env.now <= run[j].act.env.now
  }

  lemma {:induction false} VerdictSinceWasNow(run: seq<Turn>)
    requires LastMove(run).Some? && ValidRun(run)
    ensures exists i :: 0 <= i < |run| && run[i].act.Step? && VerdictSince(run) == run[i].act.env.now
  {
    hide Reconcile;
    EarlierValid(run);
    var t := Latest(run);
    if t.out.write.Landed? && !SameVerdict(LastMove(Earlier(run)), t.out.write.move) {
      assert run[|run|-1].act.Step?;
    } else {
      VerdictSinceWasNow(Earlier(run));
      var i :| 0 <= i < |Earlier(run)| && Earlier(run)[i].act.Step?
               && VerdictSince(Earlier(run)) == Earlier(run)[i].act.env.now;
      assert run[i] == Earlier(run)[i];
    }
  }

  lemma VerdictAdvances(run: seq<Turn>)
    requires ValidRun(run) && run != [] && ClockForward(run) && LastMove(Earlier(run)).Some?
    ensures LastMove(run).Some? && VerdictSince(Earlier(run)) <= VerdictSince(run)
  {
    hide Reconcile;
    EarlierValid(run);
    VerdictSinceWasNow(Earlier(run));
    var i :| 0 <= i < |Earlier(run)| && Earlier(run)[i].act.Step?
             && VerdictSince(Earlier(run)) == Earlier(run)[i].act.env.now;
    assert run[i] == Earlier(run)[i];
    if Latest(run).act.Step? {
      assert run[i].act.env.now <= run[|run|-1].act.env.now;
    }
  }

  /** With such a clock, at any two moments of a run: once the entry is there it stays, and its
      transition time never decreases. */
  lemma {:induction false} TransitionTimeNeverDecreases(run: seq<Turn>, i: nat, j: nat)
    requires ValidRun(run) && ClockForward(run) && i <= j < |run|
    requires run[i].out.post.Some? && run[j].out.post.Some?
    requires Conditions.Find(run[i].out.post.value.status.conditions, Synchronized).Some?
    ensures var c := Conditions.Find(run[i].out.post.value.status.conditions, Synchronized).value;
            var c' := Conditions.Find(run[j].out.post.value.status.conditions, Synchronized);
            c'.Some? && c.lastTransition <= c'.value.lastTransition
    decreases j
  {
    hide Reconcile, VerdictSince, LastWrite;
    if i < j {
      PrefixValid(run, j);
      TransitionTimeNeverDecreases(run, i, j - 1);
      PrefixValid(run, j + 1);
      var now := run[..j+1];
      assert Earlier(now) == run[..j];
      ConditionIsTheLastVerdict(now);
      ConditionIsTheLastVerdict(Earlier(now));
      VerdictAdvances(now);
    }
  }

  predicate SynchronizedTrue(o: Object) {
    var c := Conditions.Find(o.status.conditions, Synchronized);
    c.Some? && c.value.status == True
  }

  /** The last landed write was a step's own, and its move still names the phase. */
  lemma {:induction false} LastWriteStands(run: seq<Turn>)
    requires ValidRun(run) && Final(run).Some?
    ensures var o, t := Final(run).value, LastWrite(run);
            if t.None? then o.status.phase == Initial
            else && t.value.act.Step? && t.value.pre.Some? && t.value.pre.value.key == o.key
                 && o.status.phase == t.value.out.write.move.next
                 && MoveOk(t.value.pre.value, t.value.act.env, t.value.out.write.move)
  {
    hide Reconcile, MoveOk;
    EarlierValid(run);
    var earlier, t := Earlier(run), Latest(run);
    assert earlier == [] ==> LastWrite(earlier) == None;
    if earlier != [] {
      LastWriteStands(earlier);
      if t.act.Step? {
        StepWrites(t.pre.value, t.act.env);
      }
    }
  }

  /** What Synchronized says: for the eight kinds other than CloudServer a Created object has
      it True, and True narrows the phase to Provisioning, Created or Failed. */
  lemma SynchronizedMeaning(run: seq<Turn>)
    requires ValidRun(run) && Final(run).Some?
    ensures var o := Final(run).value;
            && (o.status.phase == Created && o.key.kind != CloudServer ==> SynchronizedTrue(o))
            && (SynchronizedTrue(o) ==> o.status.phase in {Provisioning, Created, Failed})
  {
    hide Reconcile, LastWrite, VerdictSince;
    LastWriteStands(run);
    ConditionIsTheLastVerdict(run);
  }

  /** An object in Created is not Synchronized exactly when the last landed write was made by a
      step that found it already Created; that is a CloudServer one of whose data volumes could
      not be looked up. */
  lemma CreatedButNotTrue(run: seq<Turn>)
    requires ValidRun(run) && Final(run).Some? && Final(run).value.status.phase == Created
    ensures LastWrite(run).Some? && LastWrite(run).value.pre.Some? && LastWrite(run).value.act.Step?
    ensures var o, env := LastWrite(run).value.pre.value, LastWrite(run).value.act.env;
            && (!SynchronizedTrue(Final(run).value) <==> o.status.phase == Created)
            && (o.status.phase == Created ==>
                  o.key.kind == CloudServer && !AllResolve(env.refs, BlockStorage, o.spec.dataVolumes))
  {
    hide Reconcile, LastWrite, VerdictSince;
    LastWriteStands(run);
    ConditionIsTheLastVerdict(run);
  }

  /** True is not the same as Created: an acknowledged status request makes Synchronized True
      whichever of the three phases its state leads to. */
  lemma PollSetsTrue(o: Object, env: Env)
    requires o.status.phase == Provisioning && o.key.kind != Project
    requires Running(o, env) && !Interrupted(o, env)
    requires Classify(GET, env.answer).Ok? && Reconcile(o, env).write.Landed?
    ensures var o' := Reconcile(o, env).post;
            && o'.Some? && SynchronizedTrue(o'.value)
            && match Classify(GET, env.answer).state
               case Available | Active | NotUsed | Used => o'.value.status.phase == Created
               case RemoteFailed | RemoteError => o'.value.status.phase == Failed
               case InCreation | BeingProvisioned | OtherState(_) => o'.value.status.phase == Provisioning
  {
    hide Create, Update, Steady, Delete, Initialize;
    var m := Reconcile(o, env).write.move;
    Conditions.UpdatedIsARegister(o.status.conditions, Synchronized, m.cond, m.reason, env.text, env.now);
  }

  // ---------- exactly when Synchronized is True ----------

  /** The remote cloud acknowledged a status request, an update, or a create it answered as
      done; a Project's create counts whatever the answer. */
  predicate Confirms(kind: Kind, x: Exchange) {
    && x.Acknowledged()
    && match x.call
       case Get(_) => true
       case Put(_, _, _) => true
       case Post(_, _, _) => kind == Project || !(x.Reply().state.InCreation? || x.Reply().state.BeingProvisioned?)
       case AttachDetach(_, _, _) => false
       case Remove(_) => false
  }

  predicate ConfirmedIn(kind: Kind, calls: seq<Exchange>) {
    exists x :: x in calls && Confirms(kind, x)
  }

  /** A whole pass of a CloudServer through Updating: all it had to look up was found, and all
      it asked for was acknowledged. */
  predicate PassCompleted(o: Object, env: Env, calls: seq<Exchange>) {
    && !Interrupted(o, env)
    && (o.status.observedGeneration != o.generation ==>
          ResolveAttachments(o.spec, env.refs, o.status.links).Some?)
    && AllResolve(env.refs, BlockStorage, o.spec.dataVolumes)
    && forall x :: x in calls ==> x.Acknowledged()
  }

  predicate Confirmed(o: Object, env: Env, calls: seq<Exchange>) {
    if o.key.kind == CloudServer && o.status.phase == Updating then PassCompleted(o, env, calls)
    else ConfirmedIn(o.key.kind, calls)
  }

  /** A plan asks for True exactly when it was confirmed. */
  predicate Verdict(o: Object, env: Env, p: Plan) {
    p.Go? ==> (p.move.cond == True <==> Confirmed(o, env, p.calls))
  }

  lemma OnlyCall(kind: Kind, calls: seq<Exchange>)
    requires |calls| <= 1
    ensures ConfirmedIn(kind, calls) <==> |calls| == 1 && Confirms(kind, calls[0])
  {
    if |calls| == 1 {
      assert calls[0] in calls;
    }
  }

  lemma CreateVerdict(o: Object, env: Env)
    requires o.status.phase == Creating
    ensures Verdict(o, env, Create(o, env))
  {
    hide ResolveForCreate, PathOf, Recorded;
    OnlyCall(o.key.kind, Create(o, env).calls);
  }

  lemma ProvisionVerdict(o: Object, env: Env)
    requires o.status.phase == Provisioning
    ensures Verdict(o, env, Provision(o, env))
  {
    hide PathOf;
    OnlyCall(o.key.kind, Provision(o, env).calls);
  }

  lemma UpdateVerdict(o: Object, env: Env)
    requires o.status.phase == Updating && o.key.kind != CloudServer
    ensures Verdict(o, env, Update(o, env))
  {
    hide PathOf;
    OnlyCall(o.key.kind, Update(o, env).calls);
  }

  lemma RetryIsNotTrue()
    ensures forall phase, f :: FailureMove(phase, f).cond == False
  {
  }

  lemma UpdateVolumesVerdict(o: Object, mem: Status, env: Env, calls: seq<Exchange>)
    requires forall x :: x in calls ==> x.Acknowledged()
    ensures var p := UpdateVolumes(o, mem, env, calls);
            p.Go? && (p.move.cond == True <==>
              AllResolve(env.refs, BlockStorage, o.spec.dataVolumes) && forall x :: x in p.calls ==> x.Acknowledged())
  {
    hide FailureMove, Classify, PathOf, Volumes.Without;
    RetryIsNotTrue();
    var p := UpdateVolumes(o, mem, env, calls);
    if |p.calls| > |calls| {
      assert p.calls == calls + [p.calls[|calls|]] && p.calls[|calls|] in p.calls;
    }
  }

  lemma UpdateServerVerdict(o: Object, env: Env)
    requires o.status.phase == Updating && o.key.kind == CloudServer && !Interrupted(o, env)
    ensures Verdict(o, env, UpdateServer(o, env))
  {
    hide UpdateVolumes, FailureMove, Classify, PathOf, ResolveAttachments;
    RetryIsNotTrue();
    if o.status.observedGeneration == o.generation {
      UpdateVolumesVerdict(o, o.status, env, []);
    } else {
      var links := ResolveAttachments(o.spec, env.refs, o.status.links);
      if links.Some? {
        var x := Exchange(Put(Address(o), o.spec, links.value), env.answer);
        if x.Acknowledged() {
          UpdateVolumesVerdict(o, o.status.(links := links.value.(elasticIpID := "")), env, [x]);
        } else {
          assert x in [x];
        }
      }
    }
  }

  lemma DecideVerdict(o: Object, env: Env)
    ensures Verdict(o, env, Decide(o, env))
  {
    if Running(o, env) && !Interrupted(o, env) && o.status.phase in {Creating, Provisioning, Updating} {
      hide Create, Provision, Update;
      if o.status.phase == Creating { CreateVerdict(o, env); }
      else if o.status.phase == Provisioning { ProvisionVerdict(o, env); }
      else if o.key.kind != CloudServer { UpdateVerdict(o, env); }
      else { UpdateServerVerdict(o, env); UpdatingServerStep(o, env); }
    } else {
      hide Decide;
      DecideSound(o, env);
    }
  }

  /** A landed write leaves Synchronized True exactly when its step was confirmed: for the
      eight kinds, by an acknowledged status request, an acknowledged update or a create
      answered as done; for a CloudServer in Updating, by a completed pass. */
  lemma TrueIffConfirmed(o: Object, env: Env)
    ensures var out := Reconcile(o, env);
            out.write.Landed? ==>
              out.post.Some? && (SynchronizedTrue(out.post.value) <==> Confirmed(o, env, out.calls))
  {
    hide Decide, Confirmed;
    DecideVerdict(o, env);
    StepWrites(o, env);
    var out := Reconcile(o, env);
    if out.write.Landed? {
      Conditions.UpdatedIsARegister(o.status.conditions, Synchronized, out.write.move.cond, out.write.move.reason,
                                    env.text, env.now);
    }
  }

  /** In every run Synchronized is True exactly when the last landed write was confirmed. */
  lemma {:induction false} TrueIffLastWriteConfirmed(run: seq<Turn>)
    requires ValidRun(run) && Final(run).Some?
    ensures var t := LastWrite(run);
            && (t.Some? ==> t.value.act.Step? && t.value.pre.Some?)
            && (SynchronizedTrue(Final(run).value) <==>
                  t.Some? && Confirmed(t.value.pre.value, t.value.act.env, t.value.out.calls))
  {
    hide Reconcile, Confirmed;
    EarlierValid(run);
    var earlier, t := Earlier(run), Latest(run);
    if earlier != [] {
      TrueIffLastWriteConfirmed(earlier);
      if t.act.Step? {
        TrueIffConfirmed(t.pre.value, t.act.env);
        StepWrites(t.pre.value, t.act.env);
      }
    }
  }
}
