/** A whole cluster: the objects of all nine kinds reconciled, created, edited and deleted in
    any interleaving.  Each object's history is a run, so everything proved about runs holds for
    every object of every cluster; what is new here is the order between objects. */
module Fleet {
  import opened Api
  import opened Engine
  import opened Steps
  import opened Runs
  import opened Identity
  import Recording
  import ServerUpdates
  import VolumeAgreement
  import Volumes

  datatype Entry = Entry(key: Key, turn: Turn)

  /** What the cluster stores under a key after a log of turns. */
  function Stored(log: seq<Entry>, key: Key): Option<Object> {
    if log == [] then None
    else if log[|log|-1].key == key then log[|log|-1].turn.out.post
    else Stored(log[..|log|-1], key)
  }

  /** The references a step can read are those of the objects stored at that moment. */
  predicate ReadsStore(log: seq<Entry>, refs: map<Key, string>) {
    forall k :: k in refs ==> Stored(log, k).Some? && Stored(log, k).value.status.resourceID == refs[k]
  }

  predicate EntryOk(before: seq<Entry>, e: Entry) {
    && TurnOk(Stored(before, e.key).None?, Stored(before, e.key), e.turn)
    && (e.turn.act.Born? ==> e.turn.act.o.key == e.key)
    && (e.turn.act.Step? ==> ReadsStore(before, e.turn.act.env.refs))
  }

  predicate ValidLog(log: seq<Entry>) {
    log == [] || (ValidLog(log[..|log|-1]) && EntryOk(log[..|log|-1], log[|log|-1]))
  }

  /** The turns of the object that is, or last was, stored under a key. */
  function History(log: seq<Entry>, key: Key): seq<Turn> {
    if log == [] then []
    else
      var e := log[|log|-1];
      if e.key != key then History(log[..|log|-1], key)
      else if e.turn.act.Born? then [e.turn]
      else History(log[..|log|-1], key) + [e.turn]
  }

  lemma AppendValid(run: seq<Turn>, t: Turn)
    requires ValidRun(run) && TurnOk(run == [], Final(run), t)
    ensures ValidRun(run + [t]) && Final(run + [t]) == t.out.post && Earlier(run + [t]) == run
  {
    hide Reconcile;
    var run' := run + [t];
    forall i | 0 <= i < |run'| ensures TurnOk(i == 0, Before(run', i), run'[i]) {
      if i < |run| {
        assert run'[i] == run[i] && Before(run', i) == Before(run, i);
        assert TurnOk(i == 0, Before(run, i), run[i]);
      } else {
        assert Before(run', i) == Final(run);
      }
    }
  }

  /** In every interleaving, each object's own turns form a run that ends in what is stored. */
  lemma {:induction false} HistoryIsARun(log: seq<Entry>, key: Key)
    requires ValidLog(log)
    ensures ValidRun(History(log, key)) && Final(History(log, key)) == Stored(log, key)
    ensures Stored(log, key).Some? ==> Stored(log, key).value.key == key
  {
    hide Reconcile;
    if log != [] {
      var before, e := log[..|log|-1], log[|log|-1];
      HistoryIsARun(before, key);
      if e.key == key {
        if e.turn.act.Born? {
          AppendValid([], e.turn);
          assert [] + [e.turn] == [e.turn];
        } else {
          AppendValid(History(before, key), e.turn);
          if e.turn.act.Step? {
            StepKeepsMetadata(e.turn.pre.value, e.turn.act.env);
          }
        }
      }
    }
  }

  // ---------- dependency order ----------

  /** The entry's step had a create acknowledged with `id`, and its recording write landed. */
  predicate Records(e: Entry, key: Key, id: string) {
    && e.key == key && e.turn.out.write.Landed?
    && CreateIn(e.turn.out.calls).Some? && CreateIn(e.turn.out.calls).value.Reply().id == id
  }

  /** Entry j records `id` for the object stored under `key` after `log`, not for an earlier
      object of the same name. */
  predicate OwnRecord(log: seq<Entry>, j: nat, key: Key, id: string) {
    && j < |log| && Records(log[j], key, id)
    && forall m :: j < m < |log| && log[m].key == key ==> !log[m].turn.act.Born?
  }

  lemma {:induction false} RecordHasEntry(log: seq<Entry>, key: Key) returns (j: nat)
    requires ValidLog(log) && Record(History(log, key)).Some?
    ensures OwnRecord(log, j, key, Record(History(log, key)).value.Reply().id)
  {
    hide Reconcile;
    var before, e := log[..|log|-1], log[|log|-1];
    var h := History(log, key);
    if e.key == key && !e.turn.act.Born? {
      assert Earlier(h) == History(before, key) && Latest(h) == e.turn;
      if CreateIn(e.turn.out.calls).Some? && e.turn.out.write.Landed? {
        j := |log| - 1;
        return;
      }
    }
    j := RecordHasEntry(before, key);
    assert forall m :: 0 <= m < |before| ==> before[m] == log[m];
  }

  /** A stored, non-empty ResourceID was returned by the object's own acknowledged create and
      recorded by an earlier entry. */
  lemma StoredIdIsOwn(log: seq<Entry>, key: Key)
    requires ValidLog(log) && Stored(log, key).Some? && Stored(log, key).value.status.resourceID != ""
    ensures exists j: nat :: OwnRecord(log, j, key, Stored(log, key).value.status.resourceID)
  {
    hide Reconcile;
    HistoryIsARun(log, key);
    CreateAccounting(History(log, key));
    var j := RecordHasEntry(log, key);
  }

  /** The references a create request of a kind carries, with the identifier used for each. */
  predicate Depends(kind: Kind, spec: Spec, links: Links, key: Key, id: string) {
    || (kind != Project && key == Key(Project, spec.project) && id == links.projectID)
    || (kind in {Subnet, SecurityGroup, SecurityRule, CloudServer}
        && key == Key(Vpc, spec.vpc) && id == links.vpcID)
    || (kind == SecurityRule && key == Key(SecurityGroup, spec.securityGroup) && id == links.securityGroupID)
    || (kind == CloudServer && DependsServer(spec, links, key, id))
  }

  predicate DependsServer(spec: Spec, links: Links, key: Key, id: string) {
    || (key == Key(BlockStorage, spec.bootVolume) && id == links.bootVolumeID)
    || (key == Key(KeyPair, spec.keyPair) && id == links.keyPairID)
    || DependsAttached(spec, links, key, id)
  }

  /** The references that a server's property update carries too, with the identifier used for each. */
  predicate DependsAttached(spec: Spec, links: Links, key: Key, id: string) {
    || (spec.elasticIp.Some? && key == Key(ElasticIp, spec.elasticIp.value) && id == links.elasticIpID)
    || (|spec.subnets| == |links.subnetIDs| &&
        exists i :: 0 <= i < |spec.subnets| && key == Key(Subnet, spec.subnets[i]) && id == links.subnetIDs[i])
    || (|spec.securityGroups| == |links.securityGroupIDs| &&
        exists i :: 0 <= i < |spec.securityGroups| && key == Key(SecurityGroup, spec.securityGroups[i])
                    && id == links.securityGroupIDs[i])
  }

  lemma ResolvedFromRefs(kind: Kind, spec: Spec, refs: map<Key, string>, links: Links, key: Key, id: string)
    requires ResolveForCreate(kind, spec, refs) == Some(links)
    requires Depends(kind, spec, links, key, id)
    ensures key in refs && refs[key] == id && id != ""
  {
    if kind == CloudServer && DependsServer(spec, links, key, id) {
      var base := NO_LINKS.(projectID := links.projectID, vpcID := links.vpcID);
      assert ResolveAttachments(spec, refs, base).Some?;
    }
  }

  /** The list references of a server are carried element by element. */
  lemma ListsMatch(spec: Spec, refs: map<Key, string>, links: Links)
    requires ResolveForCreate(CloudServer, spec, refs) == Some(links)
    ensures |links.subnetIDs| == |spec.subnets| && |links.securityGroupIDs| == |spec.securityGroups|
    ensures forall i :: 0 <= i < |spec.subnets| ==>
              Lookup(refs, Subnet, spec.subnets[i]) == Some(links.subnetIDs[i])
    ensures forall i :: 0 <= i < |spec.securityGroups| ==>
              Lookup(refs, SecurityGroup, spec.securityGroups[i]) == Some(links.securityGroupIDs[i])
  {
  }

  lemma {:induction false} LogPrefix(log: seq<Entry>, n: nat)
    requires ValidLog(log) && n <= |log|
    ensures ValidLog(log[..n])
    ensures n < |log| ==> EntryOk(log[..n], log[n])
  {
    hide Reconcile;
    if n == |log| {
      assert log[..n] == log;
    } else if n == |log| - 1 {
    } else {
      LogPrefix(log[..|log|-1], n);
      assert log[..|log|-1][..n] == log[..n];
    }
  }

  /** In every interleaving, a create request carries for each of its references a non-empty
      identifier that the referenced object's own acknowledged create returned and that was
      recorded before the request was sent. */
  lemma CreatesUseRecordedIds(log: seq<Entry>, i: nat, x: Exchange, key: Key, id: string)
    requires ValidLog(log) && i < |log|
    requires x in log[i].turn.out.calls && x.call.Post?
    requires Depends(log[i].key.kind, x.call.spec, x.call.links, key, id)
    ensures id != "" && exists j: nat :: OwnRecord(log[..i], j, key, id)
  {
    hide Reconcile;
    LogPrefix(log, i);
    HistoryIsARun(log[..i], log[i].key);
    var o, env := log[i].turn.pre.value, log[i].turn.act.env;
    Recording.CreateResolves(o, env, x);
    ResolvedFromRefs(o.key.kind, o.spec, env.refs, x.call.links, key, id);
    StoredIdIsOwn(log[..i], key);
  }

  // ---------- the identifiers in later requests ----------

  lemma AttachedFromRefs(spec: Spec, refs: map<Key, string>, held: Links, links: Links, key: Key, id: string)
    requires ResolveAttachments(spec, refs, held) == Some(links) && DependsAttached(spec, links, key, id)
    ensures key in refs && refs[key] == id && id != ""
  {
  }

  /** The same holds of every property update of a server, whose lists correspond to the
      spec's element by element. */
  lemma UpdatesUseRecordedIds(log: seq<Entry>, i: nat, x: Exchange, key: Key, id: string)
    requires ValidLog(log) && i < |log| && log[i].key.kind == CloudServer
    requires x in log[i].turn.out.calls && x.call.Put?
    ensures |x.call.links.subnetIDs| == |x.call.spec.subnets|
    ensures |x.call.links.securityGroupIDs| == |x.call.spec.securityGroups|
    ensures DependsAttached(x.call.spec, x.call.links, key, id) ==>
              id != "" && exists j: nat :: OwnRecord(log[..i], j, key, id)
  {
    hide Reconcile, DependsAttached;
    LogPrefix(log, i);
    HistoryIsARun(log[..i], log[i].key);
    var o, env := log[i].turn.pre.value, log[i].turn.act.env;
    ServerUpdates.PutResolves(o, env, x);
    if DependsAttached(x.call.spec, x.call.links, key, id) {
      AttachedFromRefs(o.spec, env.refs, o.status.links, x.call.links, key, id);
      StoredIdIsOwn(log[..i], key);
    }
  }

  /** `id` was recorded by the create of some data volume of the spec. */
  ghost predicate OwnVolume(log: seq<Entry>, spec: Spec, id: string) {
    exists r, j: nat :: r in spec.dataVolumes && OwnRecord(log, j, Key(BlockStorage, r), id)
  }

  /** Every volume a server is told to attach is named by its spec's data volume references,
      and its identifier was recorded by that volume's own create before. */
  lemma AttachesUseRecordedIds(log: seq<Entry>, i: nat, x: Exchange, id: string)
    requires ValidLog(log) && i < |log|
    requires x in log[i].turn.out.calls && x.call.AttachDetach? && id in x.call.toAttach
    ensures log[i].turn.pre.Some?
    ensures id != "" && OwnVolume(log[..i], log[i].turn.pre.value.spec, id)
  {
    hide Reconcile;
    LogPrefix(log, i);
    HistoryIsARun(log[..i], log[i].key);
    var o, env := log[i].turn.pre.value, log[i].turn.act.env;
    ServerUpdates.AttachDiffs(o, env, x);
    var desired := LookupAll(env.refs, BlockStorage, o.spec.dataVolumes);
    Volumes.WithoutMembers(desired, o.status.dataVolumeIDs);
    var n :| 0 <= n < |desired| && desired[n] == id;
    var r := o.spec.dataVolumes[n];
    assert Lookup(env.refs, BlockStorage, r) == Some(id);
    StoredIdIsOwn(log[..i], Key(BlockStorage, r));
    assert r in o.spec.dataVolumes;
  }

  /** The entry's step had an attach of `id` acknowledged. */
  predicate Attaches(e: Entry, key: Key, id: string) {
    && e.key == key
    && exists x :: x in e.turn.out.calls && x.call.AttachDetach? && x.Acknowledged() && id in x.call.toAttach
  }

  lemma StepRecordsVolumes(o: Object, env: Env, id: string)
    requires Reconcile(o, env).post.Some? && id in Reconcile(o, env).post.value.status.dataVolumeIDs
    ensures id in o.status.dataVolumeIDs
            || Attaches(Entry(o.key, Turn(Some(o), Step(env), Reconcile(o, env))), o.key, id)
  {
    hide Decide, VolumeAgreement.AttachedAfter;
    VolumeAgreement.DecideMoved(o, env, {});
    DecideSound(o, env);
    var calls := Reconcile(o, env).calls;
    if id !in o.status.dataVolumeIDs {
      assert VolumeAgreement.AcknowledgesVolumes(calls);
      var x :| x in calls && x.call.AttachDetach? && x.Acknowledged();
      ServerUpdates.AttachDiffs(o, env, x);
      Volumes.WithoutMembers(Decide(o, env).mem.dataVolumeIDs, o.status.dataVolumeIDs);
    }
  }

  /** Entry m attached `id` for the object stored under `key` after `log`. */
  predicate OwnAttach(log: seq<Entry>, m: nat, key: Key, id: string) {
    && m < |log| && Attaches(log[m], key, id)
    && forall n :: m < n < |log| && log[n].key == key ==> !log[n].turn.act.Born?
  }

  lemma {:induction false} RecordedVolumeWasAttached(log: seq<Entry>, key: Key, id: string) returns (m: nat)
    requires ValidLog(log) && Stored(log, key).Some? && id in Stored(log, key).value.status.dataVolumeIDs
    ensures OwnAttach(log, m, key, id)
  {
    hide Reconcile;
    var before, e := log[..|log|-1], log[|log|-1];
    HistoryIsARun(before, key);
    if e.key == key && e.turn.act.Step? {
      StepRecordsVolumes(e.turn.pre.value, e.turn.act.env, id);
      if id !in e.turn.pre.value.status.dataVolumeIDs {
        m := |log| - 1;
        return;
      }
    }
    m := RecordedVolumeWasAttached(before, key, id);
    assert forall n :: 0 <= n < |before| ==> before[n] == log[n];
  }

  /** Every volume a server is told to detach was attached to it by an earlier step of its own,
      under an identifier that the volume's own create returned. */
  lemma DetachesWereAttached(log: seq<Entry>, i: nat, x: Exchange, id: string)
    requires ValidLog(log) && i < |log|
    requires x in log[i].turn.out.calls && x.call.AttachDetach? && id in x.call.toDetach
    ensures exists m: nat ::
              && OwnAttach(log[..i], m, log[i].key, id) && log[m].turn.pre.Some?
              && OwnVolume(log[..m], log[m].turn.pre.value.spec, id)
  {
    hide Reconcile, OwnVolume;
    LogPrefix(log, i);
    HistoryIsARun(log[..i], log[i].key);
    var o, env := log[i].turn.pre.value, log[i].turn.act.env;
    ServerUpdates.AttachDiffs(o, env, x);
    Volumes.WithoutMembers(o.status.dataVolumeIDs, LookupAll(env.refs, BlockStorage, o.spec.dataVolumes));
    var m := RecordedVolumeWasAttached(log[..i], log[i].key, id);
    assert log[..i][m] == log[m];
    var y :| y in log[m].turn.out.calls && y.call.AttachDetach? && y.Acknowledged() && id in y.call.toAttach;
    AttachesUseRecordedIds(log, m, y, id);
  }

  // ---------- chains of creates ----------

  /** The remote resource created by entry i rests on resources created by earlier entries,
      and those on earlier ones still. */
  ghost predicate Founded(log: seq<Entry>, i: nat)
    requires i < |log|
    decreases i
  {
    CreateIn(log[i].turn.out.calls).Some? &&
    var call := CreateIn(log[i].turn.out.calls).value.call;
    forall key, id {:trigger Depends(log[i].key.kind, call.spec, call.links, key, id)} ::
      Depends(log[i].key.kind, call.spec, call.links, key, id) ==>
        exists j {:trigger Records(log[j], key, id)} :: 0 <= j < i && Records(log[j], key, id) && Founded(log, j)
  }

  /** By induction along the log: every acknowledged create, of every kind, rests on a chain of
      recorded creates of everything it refers to, down to its Project. */
  lemma {:induction false} CreatesAreFounded(log: seq<Entry>, i: nat)
    requires ValidLog(log) && i < |log| && CreateIn(log[i].turn.out.calls).Some?
    ensures Founded(log, i)
    decreases i
  {
    hide Reconcile, Depends;
    var x := CreateIn(log[i].turn.out.calls).value;
    assert x in log[i].turn.out.calls;
    forall key, id | Depends(log[i].key.kind, x.call.spec, x.call.links, key, id)
      ensures exists j :: 0 <= j < i && Records(log[j], key, id) && Founded(log, j)
    {
      CreatesUseRecordedIds(log, i, x, key, id);
      var j: nat :| OwnRecord(log[..i], j, key, id);
      assert log[..i][j] == log[j];
      CreatesAreFounded(log, j);
    }
  }

  /** References point down the ranks. */
  function Rank(kind: Kind): nat {
    match kind
    case Project => 0
    case Vpc | BlockStorage | ElasticIp | KeyPair => 1
    case Subnet | SecurityGroup => 2
    case SecurityRule | CloudServer => 3
  }

  lemma DependsDescends(kind: Kind, spec: Spec, links: Links, key: Key, id: string)
    requires Depends(kind, spec, links, key, id)
    ensures Rank(key.kind) < Rank(kind)
  {
  }

  /** The create of entry i refers to what the earlier entry j recorded. */
  ghost predicate RestsOn(log: seq<Entry>, i: nat, j: nat) {
    && j < i < |log| && CreateIn(log[i].turn.out.calls).Some?
    && var call := CreateIn(log[i].turn.out.calls).value.call;
       exists key, id {:trigger Depends(log[i].key.kind, call.spec, call.links, key, id)} ::
         Depends(log[i].key.kind, call.spec, call.links, key, id) && Records(log[j], key, id)
  }

  /** Acknowledged creates, each resting on the next. */
  ghost predicate Chain(log: seq<Entry>, s: seq<nat>) {
    && s != [] && s[0] < |log| && CreateIn(log[s[0]].turn.out.calls).Some?
    && (|s| == 1 || (RestsOn(log, s[0], s[1]) && Chain(log, s[1..])))
  }

  /** No chain has more than four members; how many is bounded by the kind it starts from. */
  lemma {:induction false} ChainsAreShort(log: seq<Entry>, s: seq<nat>)
    requires Chain(log, s)
    ensures |s| <= Rank(log[s[0]].key.kind) + 1 <= 4
  {
    hide Depends;
    if |s| > 1 {
      var call := CreateIn(log[s[0]].turn.out.calls).value.call;
      var key, id :| Depends(log[s[0]].key.kind, call.spec, call.links, key, id) && Records(log[s[1]], key, id);
      DependsDescends(log[s[0]].key.kind, call.spec, call.links, key, id);
      ChainsAreShort(log, s[1..]);
    }
  }

  /** From every acknowledged create such a chain leads to the create of a Project. */
  lemma {:induction false} ChainToProject(log: seq<Entry>, i: nat) returns (s: seq<nat>)
    requires ValidLog(log) && i < |log| && CreateIn(log[i].turn.out.calls).Some?
    ensures Chain(log, s) && s[0] == i && s[|s|-1] < |log| && log[s[|s|-1]].key.kind == Project
    decreases i
  {
    hide Reconcile;
    s := [i];
    if log[i].key.kind != Project {
      var x := CreateIn(log[i].turn.out.calls).value;
      var key, id := Key(Project, x.call.spec.project), x.call.links.projectID;
      assert Depends(log[i].key.kind, x.call.spec, x.call.links, key, id);
      CreatesUseRecordedIds(log, i, x, key, id);
      var j: nat :| OwnRecord(log[..i], j, key, id);
      assert log[..i][j] == log[j];
      var rest := ChainToProject(log, j);
      s := [i] + rest;
      assert s[1..] == rest;
    }
  }

  /** The longest chain, spelled out: before a security rule's create come its group's, before
      that the group's Vpc's, and before that the Vpc's Project's. */
  lemma RuleComesLast(log: seq<Entry>, i: nat)
    requires ValidLog(log) && i < |log| && log[i].key.kind == SecurityRule
    requires CreateIn(log[i].turn.out.calls).Some?
    ensures exists p: nat, v: nat, g: nat :: p < v < g < i
              && log[p].key.kind == Project && CreateIn(log[p].turn.out.calls).Some?
              && log[v].key.kind == Vpc && CreateIn(log[v].turn.out.calls).Some?
              && log[g].key.kind == SecurityGroup && CreateIn(log[g].turn.out.calls).Some?
  {
    hide Reconcile;
    var rule := CreateIn(log[i].turn.out.calls).value;
    var groupKey, groupID := Key(SecurityGroup, rule.call.spec.securityGroup), rule.call.links.securityGroupID;
    CreatesUseRecordedIds(log, i, rule, groupKey, groupID);
    var g: nat :| OwnRecord(log[..i], g, groupKey, groupID);
    assert log[..i][g] == log[g];
    var group := CreateIn(log[g].turn.out.calls).value;
    CreatesUseRecordedIds(log, g, group, Key(Vpc, group.call.spec.vpc), group.call.links.vpcID);
    var v: nat :| OwnRecord(log[..g], v, Key(Vpc, group.call.spec.vpc), group.call.links.vpcID);
    assert log[..g][v] == log[v];
    var vpc := CreateIn(log[v].turn.out.calls).value;
    CreatesUseRecordedIds(log, v, vpc, Key(Project, vpc.call.spec.project), vpc.call.links.projectID);
    var p: nat :| OwnRecord(log[..v], p, Key(Project, vpc.call.spec.project), vpc.call.links.projectID);
    assert log[..v][p] == log[p];
  }
}
