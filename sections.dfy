/** The sections of the descriptor as wholes. */
module SectionFacts {
  import opened Wrappers
  import opened Errors
  import opened Json
  import opened Naming
  import opened Overrides
  import opened Credentials
  import opened Topology
  import opened Folds
  import opened Facts

  // --------------------------------------------------------------- channel

  lemma {:induction false} RoleEntriesKeys(orgs: seq<string>, peers: int)
    ensures Keys(RoleEntries(orgs, Peers(peers))) == FlatKeys(orgs, PeerIdsOf(peers))
  {
    if orgs != [] {
      var n := |orgs| - 1;
      var ps := Peers(peers);
      RoleEntriesKeys(orgs[..n], peers);
      KeysAppend(RoleEntries(orgs[..n], ps), OrgRoleEntries(orgs[n], ps));
      assert Keys(OrgRoleEntries(orgs[n], ps)) == OrgPeerIds(orgs[n], peers);
    }
  }

  lemma {:induction false} RoleEntriesContain(orgs: seq<string>, ps: seq<string>, o: string, j: nat)
    requires o in orgs && j < |ps|
    ensures Member(PeerId(o, ps[j]), RoleRecord(ps[j])) in RoleEntries(orgs, ps)
  {
    var n := |orgs| - 1;
    if orgs[n] == o {
      assert OrgRoleEntries(o, ps)[j] == Member(PeerId(o, ps[j]), RoleRecord(ps[j]));
    } else {
      assert o in orgs[..n] by {
        var k :| 0 <= k < |orgs| && orgs[k] == o;
        assert k < n && orgs[..n][k] == o;
      }
      RoleEntriesContain(orgs[..n], ps, o, j);
    }
  }

  lemma ChannelLookups(os: Json, roles: Json, policies: Json)
    ensures var ms := [Member("orderers", os), Member("peers", roles), Member("policies", policies)];
      Lookup(ms, "orderers") == Some(os) && Lookup(ms, "peers") == Some(roles) && Lookup(ms, "policies") == Some(policies)
  {
    var ms := [Member("orderers", os), Member("peers", roles), Member("policies", policies)];
    LookupAt(ms, 0);
    LookupAt(ms, 1);
    LookupAt(ms, 2);
  }

  /** The channel node: getOrderers() as its orderers, the role table as its peers, no policies. */
  lemma ChannelNodeFacts(orgs: seq<string>, peers: int)
    ensures var node := ChannelNode(orgs, peers);
      && Lookup(node.members, "orderers") == Some(StrArr(Orderers(|orgs|)))
      && Lookup(node.members, "peers") == Some(Obj(PutAll([], RoleEntries(orgs, Peers(peers)))))
      && Lookup(node.members, "policies") == Some(Obj([]))
  {
    ChannelLookups(StrArr(Orderers(|orgs|)), Obj(PutAll([], RoleEntries(orgs, Peers(peers)))), Obj([]));
  }

  /** For distinct orgs the role table has distinct keys, |orgs| * peers of them. */
  lemma RoleEntriesDistinct(orgs: seq<string>, peers: int)
    requires Distinct(orgs)
    ensures Distinct(Keys(RoleEntries(orgs, Peers(peers))))
    ensures |RoleEntries(orgs, Peers(peers))| == |orgs| * |Peers(peers)|
  {
    RoleEntriesKeys(orgs, peers);
    PeerIdsAcrossOrgs(orgs, peers);
  }

  /** Every role entry is the record of some org's peer, under that peer's id. */
  lemma {:induction false} RoleEntriesMembers(orgs: seq<string>, ps: seq<string>, m: Member)
    requires m in RoleEntries(orgs, ps)
    ensures exists o, j :: o in orgs && 0 <= j < |ps| && m == Member(PeerId(o, ps[j]), RoleRecord(ps[j]))
  {
    var n := |orgs| - 1;
    if m in RoleEntries(orgs[..n], ps) {
      RoleEntriesMembers(orgs[..n], ps, m);
      var o, j :| o in orgs[..n] && 0 <= j < |ps| && m == Member(PeerId(o, ps[j]), RoleRecord(ps[j]));
      assert o in orgs;
    } else {
      var j :| 0 <= j < |ps| && OrgRoleEntries(orgs[n], ps)[j] == m;
      assert orgs[n] in orgs;
    }
  }

  /**
   * Once the role entries are put into the channel's peers object, every
   * `{org}-peer{i}` finds peer i's record, whether or not org names repeat.
   */
  lemma RoleLookups(orgs: seq<string>, peers: int)
    ensures forall o, i :: o in orgs && 0 <= i < |Peers(peers)| ==>
      Lookup(PutAll([], RoleEntries(orgs, Peers(peers))), PeerId(o, PeerName(i))) == Some(RoleRecord(PeerName(i)))
  {
    var ps := Peers(peers);
    var roles := RoleEntries(orgs, ps);
    forall o, i | o in orgs && 0 <= i < |ps|
      ensures Lookup(PutAll([], roles), PeerId(o, PeerName(i))) == Some(RoleRecord(PeerName(i)))
    {
      var k, v := PeerId(o, PeerName(i)), RoleRecord(PeerName(i));
      RoleEntriesContain(orgs, ps, o, i);
      forall m | m in roles && m.key == k ensures m.value == v {
        RoleEntriesMembers(orgs, ps, m);
        var o', j :| o' in orgs && 0 <= j < |ps| && m == Member(PeerId(o', ps[j]), RoleRecord(ps[j]));
        PeerIdInjective(o', j, o, i);
      }
      PutAllLookup([], roles, k, v);
    }
  }

  /**
   * The channels section holds the one channel; its role table finds, for
   * every `{org}-peer{i}`, the record that peer's name selects, and for
   * distinct orgs it holds the entries as the loops add them, |orgs| * peers
   * of them.
   */
  lemma ChannelSectionFacts(channel: string, orgs: seq<string>, peers: int)
    ensures Keys(ChannelsSection(channel, orgs, peers).members) == [channel]
    ensures forall o, i :: o in orgs && 0 <= i < |Peers(peers)| ==>
      Lookup(PutAll([], RoleEntries(orgs, Peers(peers))), PeerId(o, PeerName(i))) == Some(RoleRecord(PeerName(i)))
    ensures Distinct(orgs) ==> PutAll([], RoleEntries(orgs, Peers(peers))) == RoleEntries(orgs, Peers(peers))
    ensures Distinct(orgs) ==> |RoleEntries(orgs, Peers(peers))| == |orgs| * |Peers(peers)|
  {
    var roles := RoleEntries(orgs, Peers(peers));
    if Distinct(orgs) {
      RoleEntriesDistinct(orgs, peers);
      assert [] + roles == roles;
      PutAllFresh([], roles);
    }
    RoleLookups(orgs, peers);
  }

  // --------------------------------------------------------- organizations

  /**
   * Any failing org node fails the section; otherwise each org finds its
   * node, and for distinct orgs the keys are exactly the orgs, in order.
   */
  lemma OrganizationsSectionFacts(cfg: Config, fs: FileSystem)
    requires Expandable(cfg)
    ensures var r := OrganizationsSection(cfg, fs);
      && (r.Failure? <==> exists org :: org in cfg.orgs.value && OrgNode(cfg, fs, org).Failure?)
      && (r.Success? ==>
            forall org :: org in cfg.orgs.value ==>
              OrgNode(cfg, fs, org).Success? && Lookup(r.value.members, org) == Some(OrgNode(cfg, fs, org).value))
      && (r.Success? && Distinct(cfg.orgs.value) ==> Keys(r.value.members) == cfg.orgs.value)
  {
    var orgs, key, node := cfg.orgs.value, SameName(), OrgNodes(cfg, fs);
    EntryFailure(orgs, key, node);
    var c := Collect(orgs, Entry(key, node));
    if c.Success? {
      EntryLookup(orgs, key, node);
      if Distinct(orgs) {
        CollectEntries(orgs, key, node);
        EntrySection(orgs, key, node);
        assert Keys(c.value) == orgs;
      }
    }
  }

  // -------------------------------------------------------------- orderers

  lemma OrderersFailure(cfg: Config, fs: FileSystem)
    requires Expandable(cfg)
    ensures OrderersSection(cfg, fs).Failure? <==>
      exists i :: 0 <= i < |cfg.orgs.value| && OrdererNode(cfg, fs, OrdererName(i)).Failure?
  {
    var n := |cfg.orgs.value|;
    var os, key, node := Orderers(n), SameName(), OrdererNodes(cfg, fs);
    EntryFailureAt(os, key, node);
    assert forall i :: 0 <= i < n ==> node(os[i]) == OrdererNode(cfg, fs, OrdererName(i));
  }

  /** Exactly the orderers orderer0 .. orderer{|orgs|-1}, each holding its node, whether or not org names repeat. */
  lemma OrderersSectionFacts(cfg: Config, fs: FileSystem)
    requires Expandable(cfg)
    ensures var r := OrderersSection(cfg, fs);
      && (r.Failure? <==>
            exists i :: 0 <= i < |cfg.orgs.value| && OrdererNode(cfg, fs, OrdererName(i)).Failure?)
      && (r.Success? ==>
            && Keys(r.value.members) == Orderers(|cfg.orgs.value|)
            && forall i :: 0 <= i < |cfg.orgs.value| ==>
                 OrdererNode(cfg, fs, OrdererName(i)).Success? &&
                 Lookup(r.value.members, OrdererName(i)) == Some(OrdererNode(cfg, fs, OrdererName(i)).value))
  {
    OrderersFailure(cfg, fs);
    var n := |cfg.orgs.value|;
    var os, key, node := Orderers(n), SameName(), OrdererNodes(cfg, fs);
    var c := Collect(os, Entry(key, node));
    if c.Success? {
      CollectEntries(os, key, node);
      NamesDistinct(0, n);
      EntrySection(os, key, node);
      assert Keys(c.value) == os;
      forall i | 0 <= i < n ensures os[i] in os { }
    }
  }

  // ----------------------------------------------------------------- peers

  /** The members one organization contributes are keyed by its peer ids, in order. */
  lemma OrgPeerEntriesKeys(cfg: Config, fs: FileSystem, org: string)
    requires cfg.root.Some?
    ensures OrgPeerEntries(cfg, fs)(org).Success? ==>
      Keys(OrgPeerEntries(cfg, fs)(org).value) == PeerIdsOf(cfg.peers)(org)
  {
    var node := PeerNodes(cfg, fs, org);
    assert OrgPeerEntries(cfg, fs)(org) == Collect(Peers(cfg.peers), Entry(PeerIdIn(org), node));
    if Collect(Peers(cfg.peers), Entry(PeerIdIn(org), node)).Success? {
      PeerEntryKeys(org, cfg.peers, node);
    }
  }

  /** The keys of one org's peer loop are its peer ids, whatever node each peer gets. */
  lemma PeerEntryKeys(org: string, peers: int, node: string -> Result<Json, BuildError>)
    requires Collect(Peers(peers), Entry(PeerIdIn(org), node)).Success?
    ensures Keys(Collect(Peers(peers), Entry(PeerIdIn(org), node)).value) == OrgPeerIds(org, peers)
  {
    var ps, key := Peers(peers), PeerIdIn(org);
    EntryKeys(ps, key, node);
    var ks := Keys(Collect(ps, Entry(key, node)).value);
    assert forall i :: 0 <= i < |ps| ==> ks[i] == PeerId(org, ps[i]);
  }

  lemma OrgPeerEntriesFailure(cfg: Config, fs: FileSystem, org: string)
    requires cfg.root.Some?
    ensures OrgPeerEntries(cfg, fs)(org).Failure? <==>
      exists i :: 0 <= i < |Peers(cfg.peers)| && PeerNode(cfg, fs, org, PeerName(i)).Failure?
  {
    var ps, key, node := Peers(cfg.peers), PeerIdIn(org), PeerNodes(cfg, fs, org);
    EntryFailureAt(ps, key, node);
    assert forall i :: 0 <= i < |ps| ==> node(ps[i]) == PeerNode(cfg, fs, org, PeerName(i));
  }

  /** A peer's key `{org}-{peer}` determines the org and the peer among getPeers(). */
  lemma PeerKeysInjective(orgs: seq<string>, peers: int)
    ensures forall x, y, x', y' ::
      (x in orgs && x' in orgs && y in Peers(peers) && y' in Peers(peers) && PeerIdIn(x)(y) == PeerIdIn(x')(y'))
        ==> x == x' && y == y'
  {
    var ps := Peers(peers);
    forall x, y, x', y' | x in orgs && x' in orgs && y in ps && y' in ps && PeerIdIn(x)(y) == PeerIdIn(x')(y')
      ensures x == x' && y == y'
    {
      var i :| 0 <= i < |ps| && ps[i] == y;
      var j :| 0 <= j < |ps| && ps[j] == y';
      PeerIdInjective(x, i, x', j);
    }
  }

  /** Each `{org}-peer{i}` finds peer i's node of that org, whether or not org names repeat. */
  lemma PeersLookups(cfg: Config, fs: FileSystem)
    requires Expandable(cfg) && PeersSection(cfg, fs).Success?
    ensures forall o, i :: o in cfg.orgs.value && 0 <= i < |Peers(cfg.peers)| ==>
      PeerNode(cfg, fs, o, PeerName(i)).Success? &&
      Lookup(PeersSection(cfg, fs).value.members, PeerId(o, PeerName(i))) == Some(PeerNode(cfg, fs, o, PeerName(i)).value)
  {
    var orgs, ps, f := cfg.orgs.value, Peers(cfg.peers), OrgPeerEntries(cfg, fs);
    var key: string -> string -> string := o => PeerIdIn(o);
    var node: string -> string -> Result<Json, BuildError> := o => PeerNodes(cfg, fs, o);
    assert forall x :: x in orgs ==> f(x) == Collect(ps, Entry(key(x), node(x)));
    PeerKeysInjective(orgs, cfg.peers);
    assert forall x, y :: key(x)(y) == PeerIdIn(x)(y);
    NestedEntryLookup(orgs, ps, f, key, node);
    forall o, i | o in orgs && 0 <= i < |ps|
      ensures PeerNode(cfg, fs, o, PeerName(i)).Success? &&
        Lookup(PeersSection(cfg, fs).value.members, PeerId(o, PeerName(i))) == Some(PeerNode(cfg, fs, o, PeerName(i)).value)
    {
      assert ps[i] in ps;
      assert key(o)(ps[i]) == PeerId(o, PeerName(i)) && node(o)(ps[i]) == PeerNode(cfg, fs, o, PeerName(i));
    }
  }

  /**
   * The section fails when any peer's node fails; otherwise each
   * `{org}-peer{i}` finds its node, and for distinct orgs there are
   * |orgs| * peers entries, keyed by exactly those pairs.
   */
  lemma PeersSectionFacts(cfg: Config, fs: FileSystem)
    requires Expandable(cfg)
    ensures var r := PeersSection(cfg, fs);
      && (r.Failure? <==>
            exists o, i :: o in cfg.orgs.value && 0 <= i < |Peers(cfg.peers)| && PeerNode(cfg, fs, o, PeerName(i)).Failure?)
      && (r.Success? ==>
            forall o, i :: o in cfg.orgs.value && 0 <= i < |Peers(cfg.peers)| ==>
              PeerNode(cfg, fs, o, PeerName(i)).Success? &&
              Lookup(r.value.members, PeerId(o, PeerName(i))) == Some(PeerNode(cfg, fs, o, PeerName(i)).value))
      && (r.Success? && Distinct(cfg.orgs.value) ==>
            && |r.value.members| == |cfg.orgs.value| * |Peers(cfg.peers)|
            && Distinct(Keys(r.value.members))
            && forall y :: y in Keys(r.value.members) <==>
                 exists o, i :: o in cfg.orgs.value && 0 <= i < |Peers(cfg.peers)| && y == PeerId(o, PeerName(i)))
  {
    var orgs, f := cfg.orgs.value, OrgPeerEntries(cfg, fs);
    var n := |Peers(cfg.peers)|;
    CollectFailureIff(orgs, f);
    forall o | o in orgs
      ensures f(o).Failure? <==> exists i :: 0 <= i < n && PeerNode(cfg, fs, o, PeerName(i)).Failure?
      ensures f(o).Success? ==> Keys(f(o).value) == PeerIdsOf(cfg.peers)(o)
    {
      OrgPeerEntriesFailure(cfg, fs, o);
      OrgPeerEntriesKeys(cfg, fs, o);
    }
    CollectKeys(orgs, f, PeerIdsOf(cfg.peers));
    var r := Collect(orgs, f);
    if r.Success? {
      PeersLookups(cfg, fs);
      if Distinct(orgs) {
        PeerIdsAcrossOrgs(orgs, cfg.peers);
        assert [] + r.value == r.value;
        PutAllFresh([], r.value);
      }
    }
  }

  // ------------------------------------------------ certificate authorities

  lemma CaNameInjective(a: string, b: string)
    requires CaName(a) == CaName(b)
    ensures a == b
  {
    PrefixCancel("ca.", a, b);
  }

  /**
   * Only a missing address fails the section, never a certificate read;
   * otherwise each `ca.{org}` finds that org's CA node, and for distinct orgs
   * there is one entry per org.
   */
  lemma CertificateAuthoritiesSectionFacts(cfg: Config, fs: FileSystem)
    requires Expandable(cfg)
    ensures var r := CertificateAuthoritiesSection(cfg, fs);
      && (r.Failure? <==> exists org :: org in cfg.orgs.value && GetUrl(cfg.urls, org, None).Failure?)
      && (r.Success? ==>
            forall org :: org in cfg.orgs.value ==>
              CaNode(cfg, fs, org).Success? && Lookup(r.value.members, CaName(org)) == Some(CaNode(cfg, fs, org).value))
      && (r.Success? && Distinct(cfg.orgs.value) ==> |r.value.members| == |cfg.orgs.value|)
  {
    var orgs, key, node := cfg.orgs.value, CaKey(), CaNodes(cfg, fs);
    EntryFailure(orgs, key, node);
    forall x ensures node(x).Failure? <==> GetUrl(cfg.urls, x, None).Failure? {
      CaNodeShape(cfg, fs, x);
    }
    var c := Collect(orgs, Entry(key, node));
    if c.Success? {
      forall x, y | x in orgs && y in orgs && key(x) == key(y) ensures x == y {
        CaNameInjective(x, y);
      }
      EntryLookup(orgs, key, node);
      if Distinct(orgs) {
        CollectEntries(orgs, key, node);
        forall i, j | 0 <= i < j < |orgs| ensures key(orgs[i]) != key(orgs[j]) {
          if key(orgs[i]) == key(orgs[j]) {
            CaNameInjective(orgs[i], orgs[j]);
          }
        }
        EntrySection(orgs, key, node);
      }
    }
  }
}
