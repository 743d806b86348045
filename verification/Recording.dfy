/** Where requests go, and what the status keeps of them: the remote identifiers of the last one
    recorded. */
module Recording {
  import opened Api
  import opened Helper
  import opened Engine
  import opened Steps
  import opened Runs
  import opened Convergence
  import opened Identity
  import ServerUpdates
  import Conditions

  lemma CreateResolves(o: Object, env: Env, x: Exchange)
    requires x in Reconcile(o, env).calls && x.call.Post?
    ensures ResolveForCreate(o.key.kind, o.spec, env.refs) == Some(x.call.links) && x.call.spec == o.spec
  {
    hide Decide;
    DecideSound(o, env);
    assert CallOk(o, x.call);
    PostComesFromCreate(o, env);
  }

  lemma PostComesFromCreate(o: Object, env: Env)
    requires o.status.phase == Creating && Running(o, env) && !Interrupted(o, env)
    ensures Decide(o, env) == Create(o, env)
    ensures Create(o, env).calls != [] ==>
              && |Create(o, env).calls| == 1 && Create(o, env).calls[0].call.Post?
              && ResolveForCreate(o.key.kind, o.spec, env.refs) == Some(Create(o, env).calls[0].call.links)
  {
  }

  /** Each kind records exactly the identifiers it resolves. */
  lemma RecordedIsResolved(kind: Kind, spec: Spec, refs: map<Key, string>)
    requires ResolveForCreate(kind, spec, refs).Some?
    ensures var links := ResolveForCreate(kind, spec, refs).value;
            Recorded(kind, NO_LINKS, links) == links
  {
    hide AllResolve, LookupAll;
  }

  /** The last acknowledged create or update whose status write landed. */
  function NextRequest(last: Option<Call>, pre: Object, out: Outcome): Option<Call> {
    if out.write.Landed? && SentIn(pre, out.calls).Some? then Some(out.calls[0].call) else last
  }

  function LastRequest(run: seq<Turn>): Option<Call> {
    if run == [] then None
    else if Latest(run).pre.None? then LastRequest(Earlier(run))
    else NextRequest(LastRequest(Earlier(run)), Latest(run).pre.value, Latest(run).out)
  }

  /** The identifiers an object keeps after a request: all it carried, save a server's elastic
      IP after an update. */
  function Kept(kind: Kind, call: Call): Links {
    match call
    case Post(_, _, links) => links
    case Put(_, _, links) => if kind == CloudServer then links.(elasticIpID := "") else links
    case _ => NO_LINKS
  }

  predicate Names(o: Object, last: Option<Call>) {
    o.status.links == if last.None? then NO_LINKS else Kept(o.key.kind, last.value)
  }

  /** How a plan changes the identifiers in memory: it takes those of its acknowledged request. */
  predicate Takes(o: Object, p: Plan) {
    p.Go? ==>
      p.mem.links == if SentIn(o, p.calls).Some? then Kept(o.key.kind, p.calls[0].call) else o.status.links
  }

  lemma UpdateLinks(o: Object, env: Env)
    requires o.status.phase == Updating && Running(o, env) && !Interrupted(o, env)
    ensures Takes(o, Decide(o, env))
  {
    if o.key.kind == CloudServer {
      hide Decide, UpdateVolumes, ResolveAttachments, PathOf, Classify, FailureMove;
      UpdatingServerStep(o, env);
      var links := ResolveAttachments(o.spec, env.refs, o.status.links);
      if o.status.observedGeneration == o.generation {
        ServerUpdates.UpdateVolumesKeepsLinks(o, o.status, env, []);
        if Decide(o, env).calls != [] {
          assert Decide(o, env).calls[0] in Decide(o, env).calls;
        }
      } else if links.Some? {
        var put := Exchange(Put(Address(o), o.spec, links.value), env.answer);
        ServerUpdates.UpdateVolumesKeepsLinks(o, o.status.(links := links.value.(elasticIpID := "")), env, [put]);
      }
    } else {
      hide UpdateServer, Create, Provision, Steady, Delete, Initialize, PathOf, Classify, FailureMove;
    }
  }

  lemma PlanTakes(o: Object, env: Env, p: Plan)
    requires Consistent(o) && Fits(o, env, p)
    requires forall x :: x in p.calls && x.call.Post? ==> Recorded(o.key.kind, NO_LINKS, x.call.links) == x.call.links
    requires p.Go? && o.status.phase == Updating && !Interrupted(o, env) ==> Takes(o, p)
    ensures Takes(o, p)
  {
    hide PathOf, Classify, Recorded, Edge, Skips;
    if p.calls != [] {
      assert p.calls[0] in p.calls && CallOk(o, p.calls[0].call);
    }
  }

  lemma PlanNames(o: Object, env: Env, p: Plan, last: Option<Call>)
    requires Names(o, last) && Takes(o, p)
    ensures var out := Perform(o, p, env);
            out.post.Some? ==> out.post.value.key == o.key && Names(out.post.value, NextRequest(last, o, out))
  {
    hide Skips, TimeToNextInterval, Kept, SentIn, Conditions.Updated;
  }

  lemma StepNames(o: Object, env: Env, last: Option<Call>)
    requires Consistent(o) && Names(o, last)
    ensures var out := Reconcile(o, env);
            out.post.Some? ==> Names(out.post.value, NextRequest(last, o, out))
  {
    hide Decide, Recorded, Kept, Names, NextRequest, SentIn, Takes;
    DecideSound(o, env);
    var p := Decide(o, env);
    forall x | x in p.calls && x.call.Post?
      ensures Recorded(o.key.kind, NO_LINKS, x.call.links) == x.call.links
    {
      CreateResolves(o, env, x);
      RecordedIsResolved(o.key.kind, o.spec, env.refs);
    }
    if o.status.phase == Updating && Running(o, env) && !Interrupted(o, env) {
      UpdateLinks(o, env);
    }
    PlanTakes(o, env, p);
    PlanNames(o, env, p, last);
  }

  /** In every run, the identifiers in the status are those of the last acknowledged create or
      update whose status write landed, with the one exception of a server's elastic IP. */
  lemma {:induction false} StatusNamesLastRequest(run: seq<Turn>)
    requires ValidRun(run) && Final(run).Some?
    ensures Names(Final(run).value, LastRequest(run))
  {
    hide Reconcile;
    EarlierValid(run);
    var earlier, t := Earlier(run), Latest(run);
    if earlier != [] {
      AlwaysConsistent(earlier);
      StatusNamesLastRequest(earlier);
      if t.act.Step? {
        StepNames(t.pre.value, t.act.env, LastRequest(earlier));
        StepKeepsMetadata(t.pre.value, t.act.env);
      }
    }
  }

  // ---------- where requests go ----------

  /** The project, Vpc and security group under which a kind's resources live; empty above. */
  predicate Under(kind: Kind, path: Path, projectID: string, vpcID: string, groupID: string) {
    && path.projectID == (if kind == Project then "" else projectID)
    && path.vpcID == (if kind in {Subnet, SecurityGroup, SecurityRule} then vpcID else "")
    && path.securityGroupID == (if kind == SecurityRule then groupID else "")
  }

  /** What `refs` holds for a reference. */
  function IdOf(refs: map<Key, string>, key: Key): string {
    if key in refs then refs[key] else ""
  }

  /** A create is a POST to the collection under the project, the Vpc and the group that the
      spec's references resolve to, each in its own place. */
  lemma CreateAddress(o: Object, env: Env, x: Exchange)
    requires x in Reconcile(o, env).calls && x.call.Post?
    ensures x.call.Method() == POST && x.call.spec == o.spec && x.call.parent.resourceID == ""
    ensures Under(o.key.kind, x.call.parent, IdOf(env.refs, Key(Project, o.spec.project)),
                  IdOf(env.refs, Key(Vpc, o.spec.vpc)), IdOf(env.refs, Key(SecurityGroup, o.spec.securityGroup)))
    ensures o.key.kind != Project ==> x.call.parent.projectID != ""
    ensures o.key.kind in {Subnet, SecurityGroup, SecurityRule} ==> x.call.parent.vpcID != ""
    ensures o.key.kind == SecurityRule ==> x.call.parent.securityGroupID != ""
  {
    hide Decide, AllResolve, LookupAll;
    DecideSound(o, env);
    assert CallOk(o, x.call);
    CreateResolves(o, env, x);
  }

  /** Every other request goes to the resource the status names, under the project, the Vpc and
      the group it names: a GET in Provisioning, a PUT, and a POST of volumes, in Updating, and a
      DELETE in Deleting. */
  lemma LaterAddress(o: Object, env: Env, x: Exchange)
    requires x in Reconcile(o, env).calls && !x.call.Post?
    ensures x.call.Target().resourceID == o.status.resourceID
    ensures Under(o.key.kind, x.call.Target(), o.status.links.projectID, o.status.links.vpcID,
                  o.status.links.securityGroupID)
    ensures x.call.Method() == match o.status.phase
                               case Provisioning => GET
                               case Updating => if x.call.AttachDetach? then POST else PUT
                               case _ => DELETE
    ensures o.status.phase in {Provisioning, Updating, Deleting}
    ensures x.call.AttachDetach? ==> o.key.kind == CloudServer
  {
    hide Decide;
    DecideSound(o, env);
    assert CallOk(o, x.call);
  }

  /** The turn whose landed write put the record on file. */
  lemma {:induction false} RecordHasTurn(run: seq<Turn>) returns (k: nat)
    requires ValidRun(run) && Record(run).Some?
    ensures k < |run| && run[k].act.Step? && run[k].pre.Some? && Record(run).value in run[k].out.calls
    ensures Final(run).Some? ==> run[k].pre.value.key == Final(run).value.key
  {
    hide Reconcile;
    EarlierValid(run);
    var t := Latest(run);
    if CreateIn(t.out.calls).Some? && t.out.write.Landed? {
      k := |run| - 1;
    } else {
      k := RecordHasTurn(Earlier(run));
      assert run[k] == Earlier(run)[k];
    }
    if t.act.Step? && t.pre.Some? {
      StepKeepsMetadata(t.pre.value, t.act.env);
    }
  }

  /** In every run, from the recording write on, every request goes to the resource that the
      recorded create returned, under the project, the Vpc and the group that the references of
      the spec resolved to when that create was sent. */
  lemma RequestsNameTheirParents(run: seq<Turn>, i: nat, x: Exchange) returns (k: nat)
    requires ValidRun(run) && i < |run| && Record(run[..i]).Some? && x in run[i].out.calls
    ensures k < i && run[k].act.Step? && run[k].pre.Some? && Record(run[..i]).value in run[k].out.calls
    ensures !x.call.Post? && x.call.Target().resourceID == Record(run[..i]).value.Reply().id
    ensures var o, refs := run[k].pre.value, run[k].act.env.refs;
            Under(o.key.kind, x.call.Target(), IdOf(refs, Key(Project, o.spec.project)),
                  IdOf(refs, Key(Vpc, o.spec.vpc)), IdOf(refs, Key(SecurityGroup, o.spec.securityGroup)))
  {
    hide Reconcile;
    PrefixValid(run, i);
    RequestsGoHome(run, i);
    k := RecordHasTurn(run[..i]);
    assert run[..i][k] == run[k];
    PrefixValid(run, k);
    CreateAddress(run[k].pre.value, run[k].act.env, Record(run[..i]).value);
  }
}
