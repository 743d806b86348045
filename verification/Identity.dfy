/** The remote resource an object stands for: how many were created, which one is on record,
    where every later request goes, and that none on record is left behind. */
module Identity {
  import opened Api
  import opened Engine
  import opened Steps
  import opened Runs
  import opened Volumes
  import opened Helper
  import Conditions

  /** The acknowledged create among a step's exchanges. */
  function CreateIn(calls: seq<Exchange>): Option<Exchange> {
    if |calls| == 1 && Creates(calls[0]) then Some(calls[0]) else None
  }

  /** The address of the resource an acknowledged create made. */
  function Home(x: Exchange): Path
    requires Creates(x)
  {
    x.call.parent.(resourceID := x.Reply().id)
  }

  // ---------- accounts of a run ----------

  function AcknowledgedCreates(run: seq<Turn>): nat {
    if run == [] then 0
    else AcknowledgedCreates(Earlier(run)) + if CreateIn(Latest(run).out.calls).Some? then 1 else 0
  }

  /** Acknowledged creates whose status write was rejected: the operator forgets them. */
  function ForgottenCreates(run: seq<Turn>): nat {
    if run == [] then 0
    else ForgottenCreates(Earlier(run)) +
         if CreateIn(Latest(run).out.calls).Some? && Latest(run).out.write.Rejected? then 1 else 0
  }

  function NextRecord(record: Option<Exchange>, out: Outcome): Option<Exchange> {
    if CreateIn(out.calls).Some? && out.write.Landed? then CreateIn(out.calls) else record
  }

  /** The acknowledged create whose recording write landed, the latest one if there were several. */
  function Record(run: seq<Turn>): (x: Option<Exchange>)
    ensures x.Some? ==> Creates(x.value)
  {
    if run == [] then None else NextRecord(Record(Earlier(run)), Latest(run).out)
  }

  /** What the stored status says about the resource on record. */
  predicate OnRecord(o: Object, record: Option<Exchange>)
    requires record.Some? ==> Creates(record.value)
  {
    match record
    case None => o.status.resourceID == "" && o.status.links == NO_LINKS
                 && o.status.phase in {Initial, Creating, Deleting, Failed}
    case Some(x) => Address(o) == Home(x) && o.status.phase !in {Initial, Creating}
                    && SameIdentity(o.status.links, Recorded(o.key.kind, NO_LINKS, x.call.links))
  }

  lemma PlanRequests(o: Object, env: Env, p: Plan, record: Option<Exchange>)
    requires Consistent(o) && Fits(o, env, p)
    requires record.Some? ==> Creates(record.value)
    requires OnRecord(o, record)
    ensures var out := Perform(o, p, env);
            && (CreateIn(out.calls).Some? ==> record.None? && (out.write.Landed? || out.write.Rejected?))
            && (record.Some? ==>
                  forall x :: x in out.calls ==> !x.call.Post? && x.call.Target() == Home(record.value))
  {
    hide TimeToNextInterval, Conditions.Updated, PathOf, Recorded, Classify;
    if CreateIn(p.calls).Some? {
      assert p.calls[0] in p.calls && CallOk(o, p.calls[0].call);
    }
  }

  lemma RecordedAddress(o: Object, mem: Status, x: Exchange)
    requires Creates(x) && x.call.parent == PathOf(o.key.kind, x.call.links, "")
    requires mem.resourceID == x.Reply().id && mem.links == Recorded(o.key.kind, NO_LINKS, x.call.links)
    ensures Address(o.(status := mem)) == Home(x)
  {
  }

  lemma PlanRecords(o: Object, env: Env, p: Plan)
    requires Consistent(o) && Fits(o, env, p) && OnRecord(o, None) && CreateIn(p.calls).Some?
    ensures var out := Perform(o, p, env);
            out.post.Some? && OnRecord(out.post.value, NextRecord(None, out))
  {
    hide TimeToNextInterval, Conditions.Updated, Classify, Recorded;
    assert p.calls[0] in p.calls && CallOk(o, p.calls[0].call);
    hide PathOf;
    if p.move.next in {Provisioning, Created} {
      RecordedAddress(o, p.mem, p.calls[0]);
    }
  }

  lemma PlanKeepsRecord(o: Object, env: Env, p: Plan, record: Option<Exchange>)
    requires Consistent(o) && Fits(o, env, p) && CreateIn(p.calls).None?
    requires record.Some? ==> Creates(record.value)
    requires OnRecord(o, record)
    ensures var out := Perform(o, p, env);
            out.post.Some? ==> OnRecord(out.post.value, record)
  {
    hide TimeToNextInterval, Conditions.Updated, Classify, Recorded;
  }

  lemma StepKeepsRecord(o: Object, env: Env, record: Option<Exchange>)
    requires Consistent(o)
    requires record.Some? ==> Creates(record.value)
    requires OnRecord(o, record)
    ensures var out := Reconcile(o, env);
            && (CreateIn(out.calls).Some? ==> record.None? && (out.write.Landed? || out.write.Rejected?))
            && (out.post.Some? ==> OnRecord(out.post.value, NextRecord(record, out)))
            && (record.Some? ==>
                  forall x :: x in out.calls ==> !x.call.Post? && x.call.Target() == Home(record.value))
  {
    hide Decide;
    DecideSound(o, env);
    PlanRequests(o, env, Decide(o, env), record);
    if CreateIn(Decide(o, env).calls).Some? {
      PlanRecords(o, env, Decide(o, env));
    } else {
      PlanKeepsRecord(o, env, Decide(o, env), record);
    }
  }

  /** Every acknowledged create is either the one on record or was forgotten with its rejected
      write; the status names the resource on record and no other. */
  lemma {:induction false} CreateAccounting(run: seq<Turn>)
    requires ValidRun(run)
    ensures AcknowledgedCreates(run) == (if Record(run).Some? then 1 else 0) + ForgottenCreates(run)
    ensures Final(run).Some? ==> OnRecord(Final(run).value, Record(run))
  {
    hide Reconcile;
    if run != [] {
      EarlierValid(run);
      CreateAccounting(Earlier(run));
      AlwaysConsistent(Earlier(run));
      var t := Latest(run);
      if t.act.Step? {
        StepKeepsRecord(t.pre.value, t.act.env, Record(Earlier(run)));
      }
    }
  }

  /** Write-once identity: from the recording write on, no further create is sent and every
      request goes to the address of the create on record. */
  lemma RequestsGoHome(run: seq<Turn>, i: nat)
    requires ValidRun(run) && i < |run| && Record(run[..i]).Some?
    ensures forall x :: x in run[i].out.calls ==>
              !x.call.Post? && x.call.Target() == Home(Record(run[..i]).value)
  {
    hide Reconcile;
    PrefixValid(run, i);
    CreateAccounting(run[..i]);
    AlwaysConsistent(run[..i]);
    var t := run[i];
    if t.act.Step? {
      StepKeepsRecord(t.pre.value, t.act.env, Record(run[..i]));
    }
  }

  /** ... and the record itself is never replaced. */
  lemma {:induction false} RecordIsFinal(run: seq<Turn>, i: nat)
    requires ValidRun(run) && i <= |run| && Record(run[..i]).Some?
    ensures Record(run) == Record(run[..i])
    decreases |run|
  {
    hide Reconcile;
    if i < |run| {
      EarlierValid(run);
      assert run[..i] == Earlier(run)[..i];
      RecordIsFinal(Earlier(run), i);
      CreateAccounting(Earlier(run));
      AlwaysConsistent(Earlier(run));
      var t := Latest(run);
      if t.act.Step? {
        StepKeepsRecord(t.pre.value, t.act.env, Record(Earlier(run)));
      }
    } else {
      assert run[..i] == run;
    }
  }

  // ---------- no orphan of a recorded resource ----------

  /** The turn's step had a DELETE of `path` acknowledged. */
  predicate Removes(t: Turn, path: Path) {
    exists x :: x in t.out.calls && x.call == Remove(path) && x.Acknowledged()
  }

  predicate RemovedIn(run: seq<Turn>, path: Path) {
    exists i :: 0 <= i < |run| && Removes(run[i], path)
  }

  /** The operator's finalizer comes off only after an acknowledged DELETE of the address in
      the status. */
  lemma PlanReleases(o: Object, env: Env, p: Plan)
    requires Fits(o, env, p) && o.Guarded()
    ensures var out := Perform(o, p, env);
            out.post.None? || !out.post.value.Guarded() ==>
              && o.status.phase == Deleting
              && |out.calls| == 1 && out.calls[0].call == Remove(Address(o)) && out.calls[0].Acknowledged()
  {
    if p.Release? {
      assert p.calls[0] in p.calls && CallOk(o, p.calls[0].call);
    }
  }

  lemma StepReleases(o: Object, env: Env)
    requires o.Guarded()
    ensures var out := Reconcile(o, env);
            out.post.None? || !out.post.value.Guarded() ==>
              && o.status.phase == Deleting
              && |out.calls| == 1 && out.calls[0].call == Remove(Address(o)) && out.calls[0].Acknowledged()
  {
    hide Decide;
    DecideSound(o, env);
    PlanReleases(o, env, Decide(o, env));
  }

  /** In every run, once a remote resource is on record the object loses the operator's
      finalizer, or leaves the cluster, only after that resource was deleted. */
  lemma {:induction false} NoOrphan(run: seq<Turn>)
    requires ValidRun(run) && Record(run).Some?
    ensures Final(run).None? || !Final(run).value.Guarded() ==> RemovedIn(run, Home(Record(run).value))
  {
    hide Reconcile;
    EarlierValid(run);
    var earlier, t := Earlier(run), Latest(run);
    CreateAccounting(earlier);
    AlwaysConsistent(earlier);
    if earlier == [] {
    } else if Record(earlier).None? {
      StepKeepsRecord(t.pre.value, t.act.env, None);
      CreateAccounting(run);
      AlwaysConsistent(run);
      StepRecordsGuarded(t.pre.value, t.act.env);
    } else {
      NoOrphan(earlier);
      RecordIsFinal(run, |run| - 1);
      var home := Home(Record(run).value);
      if RemovedIn(earlier, home) {
        var i :| 0 <= i < |earlier| && Removes(earlier[i], home);
        assert Removes(run[i], home);
      } else if t.act.Step? {
        StepReleases(t.pre.value, t.act.env);
        if Final(run).None? || !Final(run).value.Guarded() {
          assert t.out.calls[0] in t.out.calls;
          assert Removes(run[|run|-1], home);
        }
      }
    }
  }

  lemma StepFinalizers(o: Object, env: Env)
    ensures var ours, post := [Operator(o.key.kind)], Reconcile(o, env).post;
            if post.Some? then post.value.finalizers in {o.finalizers, o.finalizers + ours, Without(o.finalizers, ours)}
            else o.deleting && Without(o.finalizers, ours) == []
  {
    hide Decide, PathOf, Conditions.Updated, TimeToNextInterval, CallsOk, MoveOk, MemOk, Without, Advance;
  }

  /** Finalizers of others are none of the operator's business: a step leaves them as they are,
      in their order, and the object in the cluster as long as there is one or it is not marked
      deleted. */
  lemma ForeignFinalizersStay(o: Object, env: Env)
    ensures var ours, post := [Operator(o.key.kind)], Reconcile(o, env).post;
            if post.Some? then Without(post.value.finalizers, ours) == Without(o.finalizers, ours)
            else o.deleting && Without(o.finalizers, ours) == []
  {
    hide Reconcile;
    var ours := [Operator(o.key.kind)];
    StepFinalizers(o, env);
    WithoutTwice(o.finalizers, ours);
    WithoutActsEntrywise(o.finalizers, ours, ours);
    WithoutElements(ours, ours);
  }

  lemma {:induction false} WithoutTwice<T>(xs: seq<T>, ys: seq<T>)
    ensures Without(Without(xs, ys), ys) == Without(xs, ys)
  {
    if xs != [] {
      var n := |xs| - 1;
      WithoutTwice(xs[..n], ys);
      var last := if xs[n] in ys then [] else [xs[n]];
      WithoutActsEntrywise(Without(xs[..n], ys), last, ys);
      assert last != [] ==> last[..0] == [];
    }
  }

  /** Two resources of a kind have the same address only if they are the same resource: same
      identifier, in the same project, Vpc and group as far as the kind nests. */
  lemma AddressesAreDistinct(kind: Kind, links: Links, id: string, links': Links, id': string)
    ensures PathOf(kind, links, id) == PathOf(kind, links', id') <==>
              && id == id'
              && (kind != Project ==> links.projectID == links'.projectID)
              && (kind in {Subnet, SecurityGroup, SecurityRule} ==> links.vpcID == links'.vpcID)
              && (kind == SecurityRule ==> links.securityGroupID == links'.securityGroupID)
  {
  }

  /** The step that records a create leaves the object in the cluster, with its finalizer. */
  lemma StepRecordsGuarded(o: Object, env: Env)
    requires Consistent(o)
    ensures var out := Reconcile(o, env);
            CreateIn(out.calls).Some? ==> out.post.Some? && out.post.value.Guarded()
  {
    hide Decide;
    DecideSound(o, env);
    var p := Decide(o, env);
    if CreateIn(p.calls).Some? {
      assert p.calls[0] in p.calls && CallOk(o, p.calls[0].call);
    }
  }
}
