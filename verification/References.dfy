/** When references resolve, from the readable objects alone (the Get...ID lookups). */
module References {
  import opened Api
  import opened Engine

  /** The object is readable and carries an identifier. */
  predicate Known(refs: map<Key, string>, key: Key) {
    key in refs && refs[key] != ""
  }

  /** One reference resolves exactly when its object is readable with a non-empty identifier,
      and then to that identifier. */
  lemma LookupIff(refs: map<Key, string>, kind: Kind, ref: Reference, id: string)
    ensures Lookup(refs, kind, ref) == Some(id) <==> Key(kind, ref) in refs && refs[Key(kind, ref)] == id && id != ""
  {
  }

  /** A list resolves exactly when each of its members does, and then member by member. */
  lemma AllResolveIff(refs: map<Key, string>, kind: Kind, rs: seq<Reference>)
    ensures AllResolve(refs, kind, rs) <==> forall r :: r in rs ==> Known(refs, Key(kind, r))
    ensures AllResolve(refs, kind, rs) ==>
              && |LookupAll(refs, kind, rs)| == |rs|
              && forall i :: 0 <= i < |rs| ==> LookupAll(refs, kind, rs)[i] == refs[Key(kind, rs[i])]
  {
    if AllResolve(refs, kind, rs) {
      forall r | r in rs ensures Known(refs, Key(kind, r)) {
        var i :| 0 <= i < |rs| && rs[i] == r;
        assert Lookup(refs, kind, rs[i]).Some?;
      }
    } else {
      var i :| 0 <= i < |rs| && Lookup(refs, kind, rs[i]).None?;
      assert rs[i] in rs;
    }
  }

  /** The references a server's create and its property updates resolve. */
  predicate Attaches(spec: Spec, key: Key) {
    || (key.kind == Subnet && key.ref in spec.subnets)
    || (key.kind == SecurityGroup && key.ref in spec.securityGroups)
    || (key.kind == ElasticIp && spec.elasticIp == Some(key.ref))
  }

  /** The references a create needs: of a rule also its group, of a server also its boot volume,
      its key pair and what it is attached to. */
  predicate Needs(kind: Kind, spec: Spec, key: Key) {
    || (kind != Project && key == Key(Project, spec.project))
    || (kind in {Subnet, SecurityGroup, SecurityRule, CloudServer} && key == Key(Vpc, spec.vpc))
    || (kind == SecurityRule && key == Key(SecurityGroup, spec.securityGroup))
    || (kind == CloudServer && (key == Key(BlockStorage, spec.bootVolume) || key == Key(KeyPair, spec.keyPair)
                                || Attaches(spec, key)))
  }

  lemma AttachmentsResolveIff(spec: Spec, refs: map<Key, string>, held: Links)
    ensures ResolveAttachments(spec, refs, held).Some? <==> forall key :: Attaches(spec, key) ==> Known(refs, key)
  {
    hide AllResolve, LookupAll;
    AllResolveIff(refs, Subnet, spec.subnets);
    AllResolveIff(refs, SecurityGroup, spec.securityGroups);
    if forall key :: Attaches(spec, key) ==> Known(refs, key) {
      forall r | r in spec.subnets ensures Known(refs, Key(Subnet, r)) { assert Attaches(spec, Key(Subnet, r)); }
      forall r | r in spec.securityGroups ensures Known(refs, Key(SecurityGroup, r)) {
        assert Attaches(spec, Key(SecurityGroup, r));
      }
      assert spec.elasticIp.Some? ==> Attaches(spec, Key(ElasticIp, spec.elasticIp.value));
    }
  }

  /** A create goes out exactly when everything it needs is known, for every kind. */
  lemma CreateResolvesIff(kind: Kind, spec: Spec, refs: map<Key, string>)
    ensures ResolveForCreate(kind, spec, refs).Some? <==> forall key :: Needs(kind, spec, key) ==> Known(refs, key)
  {
    hide ResolveAttachments;
    if kind == CloudServer {
      var base := NO_LINKS.(projectID := if Lookup(refs, Project, spec.project).Some?
                                         then refs[Key(Project, spec.project)] else "",
                            vpcID := if Lookup(refs, Vpc, spec.vpc).Some? then refs[Key(Vpc, spec.vpc)] else "");
      AttachmentsResolveIff(spec, refs, base);
      assert forall key :: Attaches(spec, key) ==> Needs(kind, spec, key);
      assert Needs(kind, spec, Key(BlockStorage, spec.bootVolume)) && Needs(kind, spec, Key(KeyPair, spec.keyPair));
    }
    assert kind != Project ==> Needs(kind, spec, Key(Project, spec.project));
    assert kind in {Subnet, SecurityGroup, SecurityRule, CloudServer} ==> Needs(kind, spec, Key(Vpc, spec.vpc));
    assert kind == SecurityRule ==> Needs(kind, spec, Key(SecurityGroup, spec.securityGroup));
  }
}
