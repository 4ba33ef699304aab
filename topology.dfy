/**
 * The topology expansion of build(): the configuration the builder has
 * accumulated, the checks build() makes first, and the six sections of the
 * connection descriptor as functions of the configuration and the file system.
 */
module Topology {
  import opened Wrappers
  import opened Errors
  import opened Json
  import opened Naming
  import opened Overrides
  import opened Credentials

  /** The builder's fields; None is a null reference. */
  datatype Config = Config(
    name: Option<string>,
    orgs: Option<seq<string>>,
    peers: int,
    channel: Option<string>,
    usePem: bool,
    urls: UrlMap,
    ports: PortMap,
    root: Option<string>,
    client: Option<string>)

  const NameMissing := ConfigError("The network name is not specified.")
  const OrgsMissing := ConfigError("The client organization is not specified.")
  const ChannelMissing := ConfigError("The network channels is not specified.")
  const RootMissing := ConfigError("The network root directory is not existed.")

  /** What build() demands before it expands anything. An empty org list is accepted. */
  predicate Ready(cfg: Config, fs: FileSystem) {
    && cfg.name.Some?
    && cfg.orgs.Some?
    && cfg.channel.Some? && cfg.channel.value != ""
    && cfg.root.Some? && Exists(fs, cfg.root.value)
  }

  /** The section builders read orgs and root, which the checks have made non-null. */
  predicate Expandable(cfg: Config) {
    cfg.orgs.Some? && cfg.root.Some?
  }

  /** The checks of build(), in their order; the first that fails names the error. */
  function Check(cfg: Config, fs: FileSystem): (r: Option<BuildError>)
    ensures r.None? <==> Ready(cfg, fs)
    ensures r.Some? ==> r.value.ConfigError?
  {
    if cfg.name.None? then Some(NameMissing)
    else if cfg.orgs.None? then Some(OrgsMissing)
    else if cfg.channel.None? || cfg.channel.value == "" then Some(ChannelMissing)
    else if cfg.root.None? || !Exists(fs, cfg.root.value) then Some(RootMissing)
    else None
  }

  // ---------------------------------------------------------------- folds

  /**
   * The members that a loop over `xs` adds, in order, when the step for x
   * contributes f(x); the first failing step aborts the loop.
   */
  function Collect(xs: seq<string>, f: string -> Result<seq<Member>, BuildError>): Result<seq<Member>, BuildError> {
    if xs == [] then Success([])
    else
      var init :- Collect(xs[..|xs| - 1], f);
      var last :- f(xs[|xs| - 1]);
      Success(init + last)
  }

  /**
   * One step of a section loop: the node built for x, put under the key x
   * names; a node that fails ends the loop with its error.
   */
  function Entry(key: string -> string, node: string -> Result<Json, BuildError>): string -> Result<seq<Member>, BuildError> {
    x => var n :- node(x); Success([Member(key(x), n)])
  }

  function SameName(): string -> string {
    x => x
  }

  function PeerIdIn(org: string): string -> string {
    p => PeerId(org, p)
  }

  function CaKey(): string -> string {
    org => CaName(org)
  }

  function StrArr(ss: seq<string>): Json {
    Arr(seq(|ss|, i requires 0 <= i < |ss| => Str(ss[i])))
  }

  function NullableStr(s: Option<string>): Json {
    if s.Some? then Str(s.value) else Null
  }

  // --------------------------------------------------------------- client

  /** buildClient: fixed logging level and 30000 ms timeouts, and the client organization. */
  function ClientSection(client: Option<string>): Json {
    var peer := Obj([Member("endorser", Num(30000)), Member("eventHub", Num(30000)), Member("eventReg", Num(30000))]);
    var timeout := Obj([Member("peer", peer), Member("orderer", Num(30000))]);
    Obj([
      Member("logging", Obj([Member("level", Str("debug"))])),
      Member("connection", Obj([Member("timeout", timeout)])),
      Member("organization", NullableStr(client))])
  }

  // -------------------------------------------------------------- channel

  function Roles(endorsing: bool, chaincode: bool, ledger: bool, events: bool): Json {
    Obj([
      Member("endorsingPeer", Bool(endorsing)),
      Member("chaincodeQuery", Bool(chaincode)),
      Member("ledgerQuery", Bool(ledger)),
      Member("eventSource", Bool(events))])
  }

  /** The role record of a peer, chosen by its name; any name but peer0..peer3 gets an empty record. */
  function RoleRecord(peer: string): Json {
    if peer == "peer0" then Roles(true, true, true, true)
    else if peer == "peer1" then Roles(false, true, false, false)
    else if peer == "peer2" then Roles(false, false, true, false)
    else if peer == "peer3" then Roles(false, false, false, true)
    else Obj([])
  }

  function OrgRoleEntries(org: string, ps: seq<string>): seq<Member> {
    seq(|ps|, j requires 0 <= j < |ps| => Member(PeerId(org, ps[j]), RoleRecord(ps[j])))
  }

  /** The channel's peer records in the order of the loop over orgs and then peers. */
  function RoleEntries(orgs: seq<string>, ps: seq<string>): seq<Member> {
    if orgs == [] then []
    else RoleEntries(orgs[..|orgs| - 1], ps) + OrgRoleEntries(orgs[|orgs| - 1], ps)
  }

  /** The channel's node; the retry options that buildChannels assembles are never attached. */
  function ChannelNode(orgs: seq<string>, peers: int): Json {
    Obj([
      Member("orderers", StrArr(Orderers(|orgs|))),
      Member("peers", Obj(PutAll([], RoleEntries(orgs, Peers(peers))))),
      Member("policies", Obj([]))])
  }

  /** buildChannels: one channel, keyed by the channel name. */
  function ChannelsSection(channel: string, orgs: seq<string>, peers: int): Json {
    Obj([Member(channel, ChannelNode(orgs, peers))])
  }

  // -------------------------------------------------------- organizations

  function OrgPeerIds(org: string, peers: int): seq<string> {
    var ps := Peers(peers);
    seq(|ps|, i requires 0 <= i < |ps| => PeerId(org, ps[i]))
  }

  /** buildOrgNode: MSP id, CA name, the admin's key and certificate, and the peers when there are any. */
  function OrgNode(cfg: Config, fs: FileSystem, org: string): Result<Json, BuildError>
    requires cfg.root.Some?
  {
    var key :- AdminPrivateKey(cfg.usePem, fs, cfg.root.value, org);
    var base := [
      Member("mspid", Str(MspId(org))),
      Member("certificateAuthorities", StrArr([CaName(org)])),
      Member("adminPrivateKey", key),
      Member("signedCert", AdminSignedCert(cfg.usePem, fs, cfg.root.value, org))];
    Success(Obj(if cfg.peers > 0 then base + [Member("peers", StrArr(OrgPeerIds(org, cfg.peers)))] else base))
  }

  function OrgNodes(cfg: Config, fs: FileSystem): string -> Result<Json, BuildError>
    requires cfg.root.Some?
  {
    org => OrgNode(cfg, fs, org)
  }

  function OrgEntry(cfg: Config, fs: FileSystem): string -> Result<seq<Member>, BuildError>
    requires cfg.root.Some?
  {
    Entry(SameName(), OrgNodes(cfg, fs))
  }

  function OrganizationsSection(cfg: Config, fs: FileSystem): Result<Json, BuildError>
    requires Expandable(cfg)
  {
    var es :- Collect(cfg.orgs.value, OrgEntry(cfg, fs));
    Success(Obj(PutAll([], es)))
  }

  // ------------------------------------------------------------- orderers

  /** An orderer's address is looked up with the orderer's own name as the organization. */
  function OrdererNode(cfg: Config, fs: FileSystem, orderer: string): Result<Json, BuildError>
    requires cfg.root.Some?
  {
    var url :- GetUrl(cfg.urls, orderer, None);
    var grpc := Obj([
      Member("grpc-max-send-message-length", Num(15)),
      Member("grpc.keepalive_time_ms", Num(360000)),
      Member("grpc.keepalive_timeout_ms", Num(180000)),
      Member("hostnameOverride", Str(orderer))]);
    var tls :- OrdererTlsCerts(cfg.usePem, fs, cfg.root.value, orderer);
    Success(Obj([
      Member("url", Str("grpcs://" + url + ":7050")),
      Member("grpcOptions", grpc),
      Member("tlsCACerts", tls)]))
  }

  function OrdererNodes(cfg: Config, fs: FileSystem): string -> Result<Json, BuildError>
    requires cfg.root.Some?
  {
    o => OrdererNode(cfg, fs, o)
  }

  function OrdererEntry(cfg: Config, fs: FileSystem): string -> Result<seq<Member>, BuildError>
    requires cfg.root.Some?
  {
    Entry(SameName(), OrdererNodes(cfg, fs))
  }

  function OrderersSection(cfg: Config, fs: FileSystem): Result<Json, BuildError>
    requires Expandable(cfg)
  {
    var es :- Collect(Orderers(|cfg.orgs.value|), OrdererEntry(cfg, fs));
    Success(Obj(PutAll([], es)))
  }

  // ---------------------------------------------------------------- peers

  /** A peer's address comes from its org; its port only from the "*" port overrides, 7051 by default. */
  function PeerNode(cfg: Config, fs: FileSystem, org: string, peer: string): Result<Json, BuildError>
    requires cfg.root.Some?
  {
    var name := PeerId(org, peer);
    var url :- GetUrl(cfg.urls, org, Some(peer));
    var port := PeerPort(cfg.ports, peer);
    var grpc := Obj([
      Member("ssl-target-name-override", Str(name)),
      Member("grpc.http2.keepalive_time", Num(15)),
      Member("request-timeout", Num(120001)),
      Member("hostnameOverride", Str(name))]);
    var tls :- PeerTlsCerts(cfg.usePem, fs, cfg.root.value, org, peer);
    Success(Obj([
      Member("url", Str("grpcs://" + url + ":" + IntToString(port))),
      Member("grpcOptions", grpc),
      Member("tlsCACerts", tls)]))
  }

  function PeerNodes(cfg: Config, fs: FileSystem, org: string): string -> Result<Json, BuildError>
    requires cfg.root.Some?
  {
    p => PeerNode(cfg, fs, org, p)
  }

  function PeerEntry(cfg: Config, fs: FileSystem, org: string): string -> Result<seq<Member>, BuildError>
    requires cfg.root.Some?
  {
    Entry(PeerIdIn(org), PeerNodes(cfg, fs, org))
  }

  /** The members the inner loop of buildPeers adds for one organization. */
  function OrgPeerEntries(cfg: Config, fs: FileSystem): string -> Result<seq<Member>, BuildError>
    requires cfg.root.Some?
  {
    org => Collect(Peers(cfg.peers), PeerEntry(cfg, fs, org))
  }

  function PeersSection(cfg: Config, fs: FileSystem): Result<Json, BuildError>
    requires Expandable(cfg)
  {
    var es :- Collect(cfg.orgs.value, OrgPeerEntries(cfg, fs));
    Success(Obj(PutAll([], es)))
  }

  // ------------------------------------------------ certificate authorities

  /** A CA's address is the org's address for a null peer; a CA certificate that cannot be read is a null pem. */
  function CaNode(cfg: Config, fs: FileSystem, org: string): Result<Json, BuildError>
    requires cfg.root.Some?
  {
    var url :- GetUrl(cfg.urls, org, None);
    var grpc := Obj([
      Member("ssl-target-name-override", Str(CaName(org))),
      Member("allow-insecure", Num(0)),
      Member("trustServerCertificate", Bool(true)),
      Member("hostnameOverride", Str(CaName(org)))]);
    var admin := Obj([Member("enrollId", Str("admin")), Member("enrollSecret", Str("adminpw"))]);
    Success(Obj([
      Member("url", Str("https://" + url + ":7054")),
      Member("grpcOptions", grpc),
      Member("httpOptions", Obj([Member("verify", Bool(false))])),
      Member("registrar", Arr([admin])),
      Member("tlsCACerts", CaTlsCerts(cfg.usePem, fs, cfg.root.value, org))]))
  }

  function CaNodes(cfg: Config, fs: FileSystem): string -> Result<Json, BuildError>
    requires cfg.root.Some?
  {
    org => CaNode(cfg, fs, org)
  }

  function CaEntry(cfg: Config, fs: FileSystem): string -> Result<seq<Member>, BuildError>
    requires cfg.root.Some?
  {
    Entry(CaKey(), CaNodes(cfg, fs))
  }

  function CertificateAuthoritiesSection(cfg: Config, fs: FileSystem): Result<Json, BuildError>
    requires Expandable(cfg)
  {
    var es :- Collect(cfg.orgs.value, CaEntry(cfg, fs));
    Success(Obj(PutAll([], es)))
  }

  // ---------------------------------------------------------------- build

  const SectionKeys: seq<string> :=
    ["name", "version", "x-type", "client", "channels", "organizations", "orderers", "peers", "certificateAuthorities"]

  /**
   * build(): the checks, then the sections in the order the source builds
   * them; the first failure is the result and no tree is produced.
   */
  function Build(cfg: Config, fs: FileSystem): (r: Result<Json, BuildError>)
    ensures Check(cfg, fs).Some? ==> r == Failure(Check(cfg, fs).value)
    ensures r.Success? ==> Ready(cfg, fs) && r.value.Obj? && |r.value.members| == |SectionKeys|
  {
    match Check(cfg, fs)
    case Some(e) => Failure(e)
    case None =>
      var channels := ChannelsSection(cfg.channel.value, cfg.orgs.value, cfg.peers);
      var organizations :- OrganizationsSection(cfg, fs);
      var orderers :- OrderersSection(cfg, fs);
      var peers :- PeersSection(cfg, fs);
      var cas :- CertificateAuthoritiesSection(cfg, fs);
      Success(Obj([
        Member("name", Str(cfg.name.value)),
        Member("version", Str("1.0.0")),
        Member("x-type", Str("hlfv1")),
        Member("client", ClientSection(cfg.client)),
        Member("channels", channels),
        Member("organizations", organizations),
        Member("orderers", orderers),
        Member("peers", peers),
        Member("certificateAuthorities", cas)]))
  }
}
