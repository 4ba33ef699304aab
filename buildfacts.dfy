/** build() end to end: its checks, its tree, and what it reads. */
module BuildFacts {
  import opened Wrappers
  import opened Errors
  import opened Json
  import opened Naming
  import opened Overrides
  import opened Credentials
  import opened Topology
  import opened Folds
  import opened Facts
  import opened SectionFacts

  /** The checks run in the order name, orgs, channel, root; the first that fails is the error. */
  lemma ValidationOrder(cfg: Config, fs: FileSystem)
    ensures cfg.name.None? ==> Build(cfg, fs) == Failure(NameMissing)
    ensures cfg.name.Some? && cfg.orgs.None? ==> Build(cfg, fs) == Failure(OrgsMissing)
    ensures cfg.name.Some? && cfg.orgs.Some? && (cfg.channel.None? || cfg.channel.value == "") ==>
      Build(cfg, fs) == Failure(ChannelMissing)
    ensures (cfg.name.Some? && cfg.orgs.Some? && cfg.channel.Some? && cfg.channel.value != "" &&
             (cfg.root.None? || !Exists(fs, cfg.root.value))) ==> Build(cfg, fs) == Failure(RootMissing)
  {
  }

  /**
   * Past the checks, the sections are expanded in the order organizations,
   * orderers, peers, certificate authorities; the first that fails is the
   * error, and build() succeeds only when all four do.
   */
  lemma SectionOrder(cfg: Config, fs: FileSystem)
    requires Ready(cfg, fs)
    ensures var o, d, p, c := OrganizationsSection(cfg, fs), OrderersSection(cfg, fs), PeersSection(cfg, fs), CertificateAuthoritiesSection(cfg, fs);
      && (o.Failure? ==> Build(cfg, fs) == Failure(o.error))
      && (o.Success? && d.Failure? ==> Build(cfg, fs) == Failure(d.error))
      && (o.Success? && d.Success? && p.Failure? ==> Build(cfg, fs) == Failure(p.error))
      && (o.Success? && d.Success? && p.Success? && c.Failure? ==> Build(cfg, fs) == Failure(c.error))
      && (Build(cfg, fs).Success? <==> o.Success? && d.Success? && p.Success? && c.Success?)
  {
  }

  function Tree(a: Json, b: Json, c: Json, d: Json, e: Json, f: Json, g: Json, h: Json, i: Json): seq<Member> {
    [Member("name", a), Member("version", b), Member("x-type", c), Member("client", d),
     Member("channels", e), Member("organizations", f), Member("orderers", g), Member("peers", h),
     Member("certificateAuthorities", i)]
  }

  lemma SectionKeysDistinct()
    ensures Distinct(SectionKeys)
  {
    var ks := SectionKeys;
    forall i, j | 0 <= i < j < |ks| ensures ks[i] != ks[j] {
    }
  }

  lemma TreeLookupAt(ms: seq<Member>, n: nat)
    requires Keys(ms) == SectionKeys && n < |ms|
    ensures Lookup(ms, SectionKeys[n]) == Some(ms[n].value)
  {
    SectionKeysDistinct();
    LookupMember(ms, ms[n]);
  }

  /** Each top-level key of the tree finds the section stored under it. */
  lemma TreeLookups(a: Json, b: Json, c: Json, d: Json, e: Json, f: Json, g: Json, h: Json, i: Json)
    ensures var ms := Tree(a, b, c, d, e, f, g, h, i);
      && Keys(ms) == SectionKeys
      && Lookup(ms, "name") == Some(a) && Lookup(ms, "client") == Some(d) && Lookup(ms, "channels") == Some(e)
      && Lookup(ms, "organizations") == Some(f) && Lookup(ms, "orderers") == Some(g) && Lookup(ms, "peers") == Some(h)
      && Lookup(ms, "certificateAuthorities") == Some(i)
  {
    var ms := Tree(a, b, c, d, e, f, g, h, i);
    assert Keys(ms) == SectionKeys;
    TreeLookupAt(ms, 0);
    TreeLookupAt(ms, 3);
    TreeLookupAt(ms, 4);
    TreeLookupAt(ms, 5);
    TreeLookupAt(ms, 6);
    TreeLookupAt(ms, 7);
    TreeLookupAt(ms, 8);
  }

  /** A built descriptor holds the nine top-level keys, each section under its own key. */
  lemma BuildTree(cfg: Config, fs: FileSystem)
    requires Build(cfg, fs).Success?
    ensures var ms := Build(cfg, fs).value.members;
      && Keys(ms) == SectionKeys
      && Lookup(ms, "name") == Some(Str(cfg.name.value))
      && Lookup(ms, "client") == Some(ClientSection(cfg.client))
      && Lookup(ms, "channels") == Some(ChannelsSection(cfg.channel.value, cfg.orgs.value, cfg.peers))
      && Lookup(ms, "organizations") == Some(OrganizationsSection(cfg, fs).value)
      && Lookup(ms, "orderers") == Some(OrderersSection(cfg, fs).value)
      && Lookup(ms, "peers") == Some(PeersSection(cfg, fs).value)
      && Lookup(ms, "certificateAuthorities") == Some(CertificateAuthoritiesSection(cfg, fs).value)
  {
    var a, b, c, d := Str(cfg.name.value), Str("1.0.0"), Str("hlfv1"), ClientSection(cfg.client);
    var e := ChannelsSection(cfg.channel.value, cfg.orgs.value, cfg.peers);
    var f, g := OrganizationsSection(cfg, fs).value, OrderersSection(cfg, fs).value;
    var h, i := PeersSection(cfg, fs).value, CertificateAuthoritiesSection(cfg, fs).value;
    assert Build(cfg, fs).value.members == Tree(a, b, c, d, e, f, g, h, i);
    TreeLookups(a, b, c, d, e, f, g, h, i);
  }

  /** An empty org list passes the checks and yields empty organizations, orderers, peers and CA sections. */
  lemma EmptyOrgsAccepted(cfg: Config, fs: FileSystem)
    requires Ready(cfg, fs) && cfg.orgs.value == []
    ensures Build(cfg, fs).Success?
    ensures OrganizationsSection(cfg, fs) == Success(Obj([]))
    ensures OrderersSection(cfg, fs) == Success(Obj([]))
    ensures PeersSection(cfg, fs) == Success(Obj([]))
    ensures CertificateAuthoritiesSection(cfg, fs) == Success(Obj([]))
  {
    assert Orderers(0) == [];
    SectionOrder(cfg, fs);
  }

  /**
   * An org with no usable address for a null peer fails the build, at the
   * latest in the certificate-authority section.
   */
  lemma UnaddressedOrgFails(cfg: Config, fs: FileSystem, org: string)
    requires cfg.orgs.Some? && org in cfg.orgs.value
    requires GetUrl(cfg.urls, org, None).Failure?
    ensures Build(cfg, fs).Failure?
  {
    if Ready(cfg, fs) {
      CertificateAuthoritiesSectionFacts(cfg, fs);
      SectionOrder(cfg, fs);
    }
  }

  /**
   * Orderers are addressed under their own names: in path mode, with at
   * least one org, a build whose address map has no entry for "orderer0"
   * fails on that orderer, whatever addresses the orgs have.
   */
  lemma OrdererAddressedUnderItsOwnName(cfg: Config, fs: FileSystem)
    requires Ready(cfg, fs) && !cfg.usePem && |cfg.orgs.value| > 0
    requires OrdererName(0) !in cfg.urls
    ensures Build(cfg, fs) == Failure(UrlMissingForOrg(OrdererName(0)))
  {
    var orgs := cfg.orgs.value;
    EntryFailure(orgs, SameName(), OrgNodes(cfg, fs));
    assert forall o :: OrgNode(cfg, fs, o).Success?;
    var os := Orderers(|orgs|);
    var f := OrdererEntry(cfg, fs);
    assert os[..0] == [];
    CollectStep(os, 0, f);
    assert f(os[0]) == Failure(UrlMissingForOrg(OrdererName(0)));
    SectionOrder(cfg, fs);
  }

  /** Past the checks, build() is a function of the four fallible sections. */
  lemma BuildUnfold(cfg: Config, fs: FileSystem)
    requires Ready(cfg, fs)
    ensures Build(cfg, fs) ==
      var o, d, p, c := OrganizationsSection(cfg, fs), OrderersSection(cfg, fs), PeersSection(cfg, fs), CertificateAuthoritiesSection(cfg, fs);
      if o.Failure? then Failure(o.error)
      else if d.Failure? then Failure(d.error)
      else if p.Failure? then Failure(p.error)
      else if c.Failure? then Failure(c.error)
      else Success(Obj(Tree(Str(cfg.name.value), Str("1.0.0"), Str("hlfv1"), ClientSection(cfg.client),
        ChannelsSection(cfg.channel.value, cfg.orgs.value, cfg.peers), o.value, d.value, p.value, c.value)))
  {
  }

  /** In path mode every node is the same whatever the credential files hold. */
  lemma PathModeNodes(cfg: Config, fs1: FileSystem, fs2: FileSystem, x: string, p: string)
    requires cfg.root.Some? && !cfg.usePem
    ensures OrgNode(cfg, fs1, x) == OrgNode(cfg, fs2, x)
    ensures OrdererNode(cfg, fs1, x) == OrdererNode(cfg, fs2, x)
    ensures PeerNode(cfg, fs1, x, p) == PeerNode(cfg, fs2, x, p)
    ensures CaNode(cfg, fs1, x) == CaNode(cfg, fs2, x)
  {
    var root := cfg.root.value;
    assert AdminSignedCert(false, fs1, root, x) == AdminSignedCert(false, fs2, root, x);
    assert CaTlsCerts(false, fs1, root, x) == CaTlsCerts(false, fs2, root, x);
    assert OrdererTlsCerts(false, fs1, root, x) == OrdererTlsCerts(false, fs2, root, x);
    assert PeerTlsCerts(false, fs1, root, x, p) == PeerTlsCerts(false, fs2, root, x, p);
  }

  lemma PathModeOrganizations(cfg: Config, fs1: FileSystem, fs2: FileSystem)
    requires Expandable(cfg) && !cfg.usePem
    ensures OrganizationsSection(cfg, fs1) == OrganizationsSection(cfg, fs2)
  {
    var orgs := cfg.orgs.value;
    forall x | x in orgs ensures OrgEntry(cfg, fs1)(x) == OrgEntry(cfg, fs2)(x) {
      PathModeNodes(cfg, fs1, fs2, x, x);
    }
    CollectExt(orgs, OrgEntry(cfg, fs1), OrgEntry(cfg, fs2));
  }

  lemma PathModeOrderers(cfg: Config, fs1: FileSystem, fs2: FileSystem)
    requires Expandable(cfg) && !cfg.usePem
    ensures OrderersSection(cfg, fs1) == OrderersSection(cfg, fs2)
  {
    var os := Orderers(|cfg.orgs.value|);
    forall x | x in os ensures OrdererEntry(cfg, fs1)(x) == OrdererEntry(cfg, fs2)(x) {
      PathModeNodes(cfg, fs1, fs2, x, x);
    }
    CollectExt(os, OrdererEntry(cfg, fs1), OrdererEntry(cfg, fs2));
  }

  lemma PathModePeers(cfg: Config, fs1: FileSystem, fs2: FileSystem)
    requires Expandable(cfg) && !cfg.usePem
    ensures PeersSection(cfg, fs1) == PeersSection(cfg, fs2)
  {
    var orgs, ps := cfg.orgs.value, Peers(cfg.peers);
    forall x | x in orgs ensures OrgPeerEntries(cfg, fs1)(x) == OrgPeerEntries(cfg, fs2)(x) {
      forall p | p in ps ensures PeerEntry(cfg, fs1, x)(p) == PeerEntry(cfg, fs2, x)(p) {
        PathModeNodes(cfg, fs1, fs2, x, p);
      }
      CollectExt(ps, PeerEntry(cfg, fs1, x), PeerEntry(cfg, fs2, x));
    }
    CollectExt(orgs, OrgPeerEntries(cfg, fs1), OrgPeerEntries(cfg, fs2));
  }

  lemma PathModeCertificateAuthorities(cfg: Config, fs1: FileSystem, fs2: FileSystem)
    requires Expandable(cfg) && !cfg.usePem
    ensures CertificateAuthoritiesSection(cfg, fs1) == CertificateAuthoritiesSection(cfg, fs2)
  {
    var orgs := cfg.orgs.value;
    forall x | x in orgs ensures CaEntry(cfg, fs1)(x) == CaEntry(cfg, fs2)(x) {
      PathModeNodes(cfg, fs1, fs2, x, x);
    }
    CollectExt(orgs, CaEntry(cfg, fs1), CaEntry(cfg, fs2));
  }

  lemma PathModeSections(cfg: Config, fs1: FileSystem, fs2: FileSystem)
    requires !cfg.usePem && Ready(cfg, fs1) && Ready(cfg, fs2)
    ensures Build(cfg, fs1) == Build(cfg, fs2)
  {
    PathModeOrganizations(cfg, fs1, fs2);
    PathModeOrderers(cfg, fs1, fs2);
    PathModePeers(cfg, fs1, fs2);
    PathModeCertificateAuthorities(cfg, fs1, fs2);
    BuildCongruence(cfg, fs1, fs2);
  }

  /** Past the checks, build() depends on the file system only through the four fallible sections. */
  lemma BuildCongruence(cfg: Config, fs1: FileSystem, fs2: FileSystem)
    requires Ready(cfg, fs1) && Ready(cfg, fs2)
    requires OrganizationsSection(cfg, fs1) == OrganizationsSection(cfg, fs2)
    requires OrderersSection(cfg, fs1) == OrderersSection(cfg, fs2)
    requires PeersSection(cfg, fs1) == PeersSection(cfg, fs2)
    requires CertificateAuthoritiesSection(cfg, fs1) == CertificateAuthoritiesSection(cfg, fs2)
    ensures Build(cfg, fs1) == Build(cfg, fs2)
  {
    BuildUnfold(cfg, fs1);
    BuildUnfold(cfg, fs2);
  }

  /**
   * In path mode build() reads no credential file: two file systems that
   * agree on whether the root exists give the same result.
   */
  lemma PathModeReadsNoFiles(cfg: Config, fs1: FileSystem, fs2: FileSystem)
    requires !cfg.usePem
    requires cfg.root.Some? ==> Exists(fs1, cfg.root.value) == Exists(fs2, cfg.root.value)
    ensures Build(cfg, fs1) == Build(cfg, fs2)
  {
    assert Check(cfg, fs1) == Check(cfg, fs2);
    if Ready(cfg, fs1) {
      PathModeSections(cfg, fs1, fs2);
    }
  }
}
