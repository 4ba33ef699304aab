/** What the sections of the descriptor contain, proved about the functions of module Topology. */
module Facts {
  import opened Wrappers
  import opened Errors
  import opened Json
  import opened Naming
  import opened Overrides
  import opened Credentials
  import opened Topology
  import opened Folds

  // ----------------------------------------------------------- node shapes

  /** The value `grpcOptions.{k}` of a node, if the node has that option. */
  function GrpcOption(node: Json, k: string): Option<Json> {
    if !node.Obj? then None
    else match Lookup(node.members, "grpcOptions")
      case Some(Obj(options)) => Lookup(options, k)
      case _ => None
  }

  /** Every organization entry: its MSP id, its one CA, the admin's key and certificate, and peers only when there are some. */
  lemma OrgNodeShape(cfg: Config, fs: FileSystem, org: string)
    requires cfg.root.Some?
    ensures OrgNode(cfg, fs, org).Failure? <==> cfg.usePem && AdminPrivateKeyPem(fs, cfg.root.value, org).Failure?
    ensures var r := OrgNode(cfg, fs, org);
      r.Success? ==>
        && r.value.Obj?
        && Lookup(r.value.members, "mspid") == Some(Str(MspId(org)))
        && Lookup(r.value.members, "certificateAuthorities") == Some(StrArr([CaName(org)]))
        && Lookup(r.value.members, "adminPrivateKey") == Some(AdminPrivateKey(cfg.usePem, fs, cfg.root.value, org).value)
        && Lookup(r.value.members, "signedCert") == Some(AdminSignedCert(cfg.usePem, fs, cfg.root.value, org))
        && (Lookup(r.value.members, "peers").Some? <==> cfg.peers > 0)
        && (cfg.peers > 0 ==> Lookup(r.value.members, "peers") == Some(StrArr(OrgPeerIds(org, cfg.peers))))
  {
    var root := cfg.root.value;
    var key := AdminPrivateKey(cfg.usePem, fs, root, org);
    if key.Success? {
      var peers := if cfg.peers > 0 then Some(StrArr(OrgPeerIds(org, cfg.peers))) else None;
      var ms := OrgMembers(Str(MspId(org)), StrArr([CaName(org)]), key.value, AdminSignedCert(cfg.usePem, fs, root, org), peers);
      assert OrgNode(cfg, fs, org) == Success(Obj(ms));
      OrgHeadLookups(Str(MspId(org)), StrArr([CaName(org)]), key.value, AdminSignedCert(cfg.usePem, fs, root, org), peers);
      OrgTailLookups(Str(MspId(org)), StrArr([CaName(org)]), key.value, AdminSignedCert(cfg.usePem, fs, root, org), peers);
    }
  }

  /** The members of an organization entry, in the order buildOrgNode adds them. */
  function OrgMembers(mspid: Json, cas: Json, key: Json, cert: Json, peers: Option<Json>): seq<Member> {
    var base := [Member("mspid", mspid), Member("certificateAuthorities", cas), Member("adminPrivateKey", key), Member("signedCert", cert)];
    if peers.Some? then base + [Member("peers", peers.value)] else base
  }

  lemma OrgHeadLookups(mspid: Json, cas: Json, key: Json, cert: Json, peers: Option<Json>)
    ensures var ms := OrgMembers(mspid, cas, key, cert, peers);
      Lookup(ms, "mspid") == Some(mspid) && Lookup(ms, "certificateAuthorities") == Some(cas)
  {
    var ms := OrgMembers(mspid, cas, key, cert, peers);
    LookupAt(ms, 0);
    LookupAt(ms, 1);
  }

  lemma OrgTailLookups(mspid: Json, cas: Json, key: Json, cert: Json, peers: Option<Json>)
    ensures var ms := OrgMembers(mspid, cas, key, cert, peers);
      Lookup(ms, "adminPrivateKey") == Some(key) && Lookup(ms, "signedCert") == Some(cert) && Lookup(ms, "peers") == peers
  {
    var ms := OrgMembers(mspid, cas, key, cert, peers);
    LookupAt(ms, 2);
    LookupAt(ms, 3);
    if peers.Some? {
      LookupAt(ms, 4);
    } else {
      LookupAbsent(ms, "peers");
    }
  }

  /** An orderer: its address (looked up under its own name), and its TLS certificate; the address is resolved first. */
  lemma OrdererNodeShape(cfg: Config, fs: FileSystem, orderer: string)
    requires cfg.root.Some?
    ensures var url := GetUrl(cfg.urls, orderer, None);
      var r := OrdererNode(cfg, fs, orderer);
      && (url.Failure? ==> r == Failure(url.error))
      && (url.Success? ==> (r.Failure? <==> OrdererTlsCerts(cfg.usePem, fs, cfg.root.value, orderer).Failure?))
      && (r.Success? ==>
            && Lookup(r.value.members, "tlsCACerts") == Some(OrdererTlsCerts(cfg.usePem, fs, cfg.root.value, orderer).value)
            && Lookup(r.value.members, "url") == Some(Str("grpcs://" + url.value + ":7050"))
            && GrpcOption(r.value, "hostnameOverride") == Some(Str(orderer)))
  {
    var r := OrdererNode(cfg, fs, orderer);
    if r.Success? {
      var ms := r.value.members;
      LookupAt(ms, 0);
      LookupAt(ms, 1);
      LookupAt(ms, 2);
      LookupAt(ms[1].value.members, 3);
    }
  }

  /** A peer: the org's address for that peer, the "*" port for that peer, and its TLS credential. */
  lemma PeerNodeShape(cfg: Config, fs: FileSystem, org: string, peer: string)
    requires cfg.root.Some?
    ensures var url := GetUrl(cfg.urls, org, Some(peer));
      var r := PeerNode(cfg, fs, org, peer);
      && (url.Failure? ==> r == Failure(url.error))
      && (url.Success? ==> (r.Failure? <==> PeerTlsCerts(cfg.usePem, fs, cfg.root.value, org, peer).Failure?))
      && (r.Success? ==>
            && Lookup(r.value.members, "tlsCACerts") == Some(PeerTlsCerts(cfg.usePem, fs, cfg.root.value, org, peer).value)
            && Lookup(r.value.members, "url") ==
                 Some(Str("grpcs://" + url.value + ":" + IntToString(PeerPort(cfg.ports, peer))))
            && GrpcOption(r.value, "ssl-target-name-override") == Some(Str(PeerId(org, peer)))
            && GrpcOption(r.value, "hostnameOverride") == Some(Str(PeerId(org, peer))))
  {
    var r := PeerNode(cfg, fs, org, peer);
    if r.Success? {
      var ms := r.value.members;
      LookupAt(ms, 0);
      LookupAt(ms, 1);
      LookupAt(ms, 2);
      LookupAt(ms[1].value.members, 0);
      LookupAt(ms[1].value.members, 3);
    }
  }

  /** A CA: the org's address for a null peer on port 7054, and a TLS credential whose read never fails. */
  lemma CaNodeShape(cfg: Config, fs: FileSystem, org: string)
    requires cfg.root.Some?
    ensures var url := GetUrl(cfg.urls, org, None);
      var r := CaNode(cfg, fs, org);
      && (r.Failure? <==> url.Failure?)
      && (r.Failure? ==> r.error == url.error)
      && (r.Success? ==>
            && Lookup(r.value.members, "tlsCACerts") == Some(CaTlsCerts(cfg.usePem, fs, cfg.root.value, org))
            && Lookup(r.value.members, "url") == Some(Str("https://" + url.value + ":7054"))
            && GrpcOption(r.value, "ssl-target-name-override") == Some(Str(CaName(org)))
            && GrpcOption(r.value, "hostnameOverride") == Some(Str(CaName(org))))
  {
    var r := CaNode(cfg, fs, org);
    if r.Success? {
      var ms := r.value.members;
      LookupAt(ms, 0);
      LookupAt(ms, 1);
      LookupAt(ms, 4);
      LookupAt(ms[1].value.members, 0);
      LookupAt(ms[1].value.members, 3);
    }
  }

  // ---------------------------------------------------------------- client

  /**
   * The client section: logging, connection timeouts and the organization
   * set by client(c), null when it was never set; nothing but the
   * organization depends on the configuration.
   */
  lemma ClientSectionFacts(c: Option<string>, c': Option<string>)
    ensures var r := ClientSection(c);
      && r.Obj?
      && Keys(r.members) == ["logging", "connection", "organization"]
      && Lookup(r.members, "organization") == Some(NullableStr(c))
      && Lookup(r.members, "logging") == Some(Obj([Member("level", Str("debug"))]))
      && r.members[..2] == ClientSection(c').members[..2]
  {
    var ms := ClientSection(c).members;
    LookupAt(ms, 0);
    LookupAt(ms, 2);
  }

  // ------------------------------------------------------------ role table

  /** peer0 has every role, peer1..peer3 one each, and every later peer none. */
  lemma RoleTable(i: nat)
    ensures i == 0 ==> RoleRecord(PeerName(i)) == Roles(true, true, true, true)
    ensures i == 1 ==> RoleRecord(PeerName(i)) == Roles(false, true, false, false)
    ensures i == 2 ==> RoleRecord(PeerName(i)) == Roles(false, false, true, false)
    ensures i == 3 ==> RoleRecord(PeerName(i)) == Roles(false, false, false, true)
    ensures i >= 4 ==> RoleRecord(PeerName(i)) == Obj([])
  {
    RoleNames(i);
  }

  // --------------------------------------------------------- key functions

  function PeerIdsOf(peers: int): string -> seq<string> {
    o => OrgPeerIds(o, peers)
  }

  /** The peer ids of one organization are distinct, one per peer. */
  lemma OrgPeerIdsFacts(org: string, peers: int)
    ensures |OrgPeerIds(org, peers)| == |Peers(peers)|
    ensures Distinct(OrgPeerIds(org, peers))
    ensures forall y :: y in OrgPeerIds(org, peers) <==>
      exists i :: 0 <= i < |Peers(peers)| && y == PeerId(org, PeerName(i))
  {
    var ids := OrgPeerIds(org, peers);
    forall i, j | 0 <= i < j < |ids| ensures ids[i] != ids[j] {
      if ids[i] == ids[j] {
        PeerIdInjective(org, i, org, j);
      }
    }
    forall y | y in ids ensures exists i :: 0 <= i < |Peers(peers)| && y == PeerId(org, PeerName(i)) {
      var i :| 0 <= i < |ids| && ids[i] == y;
      assert y == PeerId(org, PeerName(i));
    }
    forall y | exists i :: 0 <= i < |Peers(peers)| && y == PeerId(org, PeerName(i)) ensures y in ids {
      var i :| 0 <= i < |Peers(peers)| && y == PeerId(org, PeerName(i));
      assert ids[i] == y;
    }
  }

  /**
   * Across distinct organizations the ids `{org}-peer{i}` are all distinct:
   * |orgs| * peers of them, exactly the pairs of an org and a peer index.
   */
  lemma PeerIdsAcrossOrgs(orgs: seq<string>, peers: int)
    requires Distinct(orgs)
    ensures Distinct(FlatKeys(orgs, PeerIdsOf(peers)))
    ensures |FlatKeys(orgs, PeerIdsOf(peers))| == |orgs| * |Peers(peers)|
    ensures forall y :: y in FlatKeys(orgs, PeerIdsOf(peers)) <==>
      exists o, i :: o in orgs && 0 <= i < |Peers(peers)| && y == PeerId(o, PeerName(i))
  {
    var k := PeerIdsOf(peers);
    forall o | o in orgs ensures Distinct(k(o)) && |k(o)| == |Peers(peers)| {
      OrgPeerIdsFacts(o, peers);
    }
    forall o, o' | o in orgs && o' in orgs && o != o' ensures Disjoint(k(o), k(o')) {
      OrgPeerIdsFacts(o, peers);
      OrgPeerIdsFacts(o', peers);
      forall y | y in k(o) ensures y !in k(o') {
        var i :| 0 <= i < |Peers(peers)| && y == PeerId(o, PeerName(i));
        if y in k(o') {
          var j :| 0 <= j < |Peers(peers)| && y == PeerId(o', PeerName(j));
          PeerIdInjective(o, i, o', j);
        }
      }
    }
    FlatKeysDistinct(orgs, k);
    FlatKeysLength(orgs, k, |Peers(peers)|);
    forall y ensures y in FlatKeys(orgs, k) <==>
      exists o, i :: o in orgs && 0 <= i < |Peers(peers)| && y == PeerId(o, PeerName(i))
    {
      FlatKeysMembership(orgs, k, y);
      if y in FlatKeys(orgs, k) {
        var o :| o in orgs && y in k(o);
        OrgPeerIdsFacts(o, peers);
      }
      if exists o, i :: o in orgs && 0 <= i < |Peers(peers)| && y == PeerId(o, PeerName(i)) {
        var o, i :| o in orgs && 0 <= i < |Peers(peers)| && y == PeerId(o, PeerName(i));
        OrgPeerIdsFacts(o, peers);
        assert y in k(o);
      }
    }
  }
}
