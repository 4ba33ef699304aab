/**
 * BbeNetworkBuilder itself: the fluent setters that fill its fields, and
 * build() with the loops of its section builders, each proved to compute
 * the corresponding function of module Topology on the builder's state.
 */
module Builder {
  import opened Wrappers
  import opened Errors
  import opened Json
  import opened Naming
  import opened Overrides
  import opened Credentials
  import opened Topology
  import opened Folds

  lemma RowStep(before: seq<Member>, row: seq<Member>, k: nat)
    requires k < |row|
    ensures PutAll([], before + row[..k + 1]) == Put(PutAll([], before + row[..k]), row[k].key, row[k].value)
  {
    assert before + row[..k + 1] == (before + row[..k]) + [row[k]];
    PutAllSnoc([], before + row[..k], row[k]);
  }

  lemma AppendOne(done: seq<Member>, inner: seq<Member>, m: Member)
    ensures done + (inner + [m]) == (done + inner) + [m]
  {
  }

  lemma RoleEntriesStep(orgs: seq<string>, i: nat, ps: seq<string>)
    requires i < |orgs|
    ensures RoleEntries(orgs[..i + 1], ps) == RoleEntries(orgs[..i], ps) + OrgRoleEntries(orgs[i], ps)[..|ps|]
  {
    assert orgs[..i + 1][..i] == orgs[..i];
    assert OrgRoleEntries(orgs[i], ps)[..|ps|] == OrgRoleEntries(orgs[i], ps);
  }

  /** A new builder: nothing set, four peers per organization, pem mode, no overrides. */
  const Defaults := Config(None, None, 4, None, true, map[], map[], None, None)

  class NetworkBuilder {
    var name: Option<string>
    var orgs: Option<seq<string>>
    var peers: int
    var channel: Option<string>
    var usePem: bool
    var urls: UrlMap
    var ports: PortMap
    var root: Option<string>
    var client: Option<string>

    /** The configuration the builder holds. */
    function Snapshot(): Config
      reads this
    {
      Config(name, orgs, peers, channel, usePem, urls, ports, root, client)
    }

    constructor()
      ensures Snapshot() == Defaults
    {
      name, orgs, peers, channel, usePem := None, None, 4, None, true;
      urls, ports, root, client := map[], map[], None, None;
    }

    // ------------------------------------------------------------ setters

    method Root(r: Option<string>) returns (self: NetworkBuilder)
      modifies this
      ensures self == this && Snapshot() == old(Snapshot()).(root := r)
    {
      root := r;
      return this;
    }

    method Name(n: Option<string>) returns (self: NetworkBuilder)
      modifies this
      ensures self == this && Snapshot() == old(Snapshot()).(name := n)
    {
      name := n;
      return this;
    }

    method UsePem(b: bool) returns (self: NetworkBuilder)
      modifies this
      ensures self == this && Snapshot() == old(Snapshot()).(usePem := b)
    {
      usePem := b;
      return this;
    }

    /** url(org, peer, u): creates the org's map when absent and stores u under the peer, or under the org for a null peer. */
    method Url(org: string, peer: Option<string>, u: string) returns (self: NetworkBuilder)
      modifies this
      ensures self == this && Snapshot() == old(Snapshot()).(urls := PutOverride(old(urls), org, peer, u))
    {
      var value := if org in urls then urls[org] else map[];
      var key := if peer.None? then org else peer.value;
      urls := urls[org := value[key := u]];
      return this;
    }

    /** port(org, peer, n): as url(), on the port overrides. */
    method Port(org: string, peer: Option<string>, n: int) returns (self: NetworkBuilder)
      modifies this
      ensures self == this && Snapshot() == old(Snapshot()).(ports := PutOverride(old(ports), org, peer, n))
    {
      var value := if org in ports then ports[org] else map[];
      var key := if peer.None? then org else peer.value;
      ports := ports[org := value[key := n]];
      return this;
    }

    method Orgs(os: Option<seq<string>>) returns (self: NetworkBuilder)
      modifies this
      ensures self == this && Snapshot() == old(Snapshot()).(orgs := os)
    {
      orgs := os;
      return this;
    }

    method Channel(c: Option<string>) returns (self: NetworkBuilder)
      modifies this
      ensures self == this && Snapshot() == old(Snapshot()).(channel := c)
    {
      channel := c;
      return this;
    }

    method Client(c: Option<string>) returns (self: NetworkBuilder)
      modifies this
      ensures self == this && Snapshot() == old(Snapshot()).(client := c)
    {
      client := c;
      return this;
    }

    // ------------------------------------------------------------- build

    /** build(): the four checks in order, then the sections. */
    method Build(fs: FileSystem) returns (r: Result<Json, BuildError>)
      ensures r == Topology.Build(Snapshot(), fs)
    {
      if name.None? {
        return Failure(NameMissing);
      }
      if orgs.None? {
        return Failure(OrgsMissing);
      }
      if channel.None? || channel.value == "" {
        return Failure(ChannelMissing);
      }
      if root.None? || !Exists(fs, root.value) {
        return Failure(RootMissing);
      }
      var channels := BuildChannels();
      var organizations :- BuildOrganizations(fs);
      var orderers :- BuildOrderers(fs);
      var peerNodes :- BuildPeers(fs);
      var cas :- BuildCertificateAuthorities(fs);
      return Success(Obj([
        Member("name", Str(name.value)),
        Member("version", Str("1.0.0")),
        Member("x-type", Str("hlfv1")),
        Member("client", ClientSection(client)),
        Member("channels", channels),
        Member("organizations", organizations),
        Member("orderers", orderers),
        Member("peers", peerNodes),
        Member("certificateAuthorities", cas)]));
    }

    /** buildChannels(): the orderer names, then a role record per org and peer. */
    method BuildChannels() returns (j: Json)
      requires orgs.Some? && channel.Some?
      ensures j == ChannelsSection(channel.value, orgs.value, peers)
    {
      var os := Orderers(|orgs.value|);
      var orderers: seq<Json> := [];
      for i := 0 to |os|
        invariant orderers == seq(i, k requires 0 <= k < i => Str(os[k]))
      {
        orderers := orderers + [Str(os[i])];
      }
      var all, ps := orgs.value, Peers(peers);
      var peersNode: seq<Member> := [];
      for i := 0 to |all|
        invariant peersNode == PutAll([], RoleEntries(all[..i], ps))
      {
        ghost var before := RoleEntries(all[..i], ps);
        ghost var row := OrgRoleEntries(all[i], ps);
        assert before + row[..0] == before;
        for k := 0 to |ps|
          invariant peersNode == PutAll([], before + row[..k])
        {
          RowStep(before, row, k);
          peersNode := Put(peersNode, PeerId(all[i], ps[k]), RoleRecord(ps[k]));
        }
        RoleEntriesStep(all, i, ps);
      }
      assert all[..|all|] == all;
      var node := [Member("orderers", Arr(orderers)), Member("peers", Obj(peersNode)), Member("policies", Obj([]))];
      return Obj([Member(channel.value, Obj(node))]);
    }

    /** buildOrganizations(): one node per org, the first failing node ending the loop. */
    method BuildOrganizations(fs: FileSystem) returns (r: Result<Json, BuildError>)
      requires orgs.Some? && root.Some?
      ensures r == OrganizationsSection(Snapshot(), fs)
    {
      var all := orgs.value;
      ghost var key, nodes := SameName(), OrgNodes(Snapshot(), fs);
      var node: seq<Member> := [];
      ghost var done: seq<Member> := [];
      for i := 0 to |all|
        invariant Collect(all[..i], Entry(key, nodes)) == Success(done)
        invariant node == PutAll([], done)
      {
        var child := BuildOrgNode(fs, all[i], peers);
        assert Snapshot().(peers := peers) == Snapshot();
        assert child == nodes(all[i]) && all[i] == key(all[i]);
        EntryStep(all, i, key, nodes, done);
        if child.Failure? {
          return Failure(child.error);
        }
        PutAllSnoc([], done, Member(all[i], child.value));
        node := Put(node, all[i], child.value);
        done := done + [Member(all[i], child.value)];
      }
      assert all[..|all|] == all;
      return Success(Obj(node));
    }

    /** buildOrgNode(org, numOfPeers): the MSP id, the CA, the admin's credentials, and the peer ids when there are any. */
    method BuildOrgNode(fs: FileSystem, org: string, numOfPeers: int) returns (r: Result<Json, BuildError>)
      requires root.Some?
      ensures r == OrgNode(Snapshot().(peers := numOfPeers), fs, org)
    {
      var key := AdminPrivateKey(usePem, fs, root.value, org);
      if key.Failure? {
        return Failure(key.error);
      }
      assert org + "MSP" == MspId(org) && "ca." + org == CaName(org);
      assert Arr([Str("ca." + org)]) == StrArr([CaName(org)]);
      var node := [
        Member("mspid", Str(org + "MSP")),
        Member("certificateAuthorities", Arr([Str("ca." + org)])),
        Member("adminPrivateKey", key.value),
        Member("signedCert", AdminSignedCert(usePem, fs, root.value, org))];
      if numOfPeers > 0 {
        var ids: seq<Json> := [];
        for i := 0 to numOfPeers
          invariant ids == seq(i, k requires 0 <= k < i => Str(PeerId(org, PeerName(k))))
        {
          assert org + "-" + "peer" + NatToString(i) == PeerId(org, PeerName(i));
          ids := ids + [Str(org + "-" + "peer" + NatToString(i))];
        }
        assert Arr(ids) == StrArr(OrgPeerIds(org, numOfPeers));
        node := node + [Member("peers", Arr(ids))];
      }
      return Success(Obj(node));
    }

    /** buildOrderers(): one node per name of getOrderers(), addressed under that name. */
    method BuildOrderers(fs: FileSystem) returns (r: Result<Json, BuildError>)
      requires orgs.Some? && root.Some?
      ensures r == OrderersSection(Snapshot(), fs)
    {
      var all := Orderers(|orgs.value|);
      ghost var key, nodes := SameName(), OrdererNodes(Snapshot(), fs);
      var node: seq<Member> := [];
      ghost var done: seq<Member> := [];
      for i := 0 to |all|
        invariant Collect(all[..i], Entry(key, nodes)) == Success(done)
        invariant node == PutAll([], done)
      {
        var child := OrdererNode(Snapshot(), fs, all[i]);
        assert child == nodes(all[i]) && all[i] == key(all[i]);
        EntryStep(all, i, key, nodes, done);
        if child.Failure? {
          return Failure(child.error);
        }
        PutAllSnoc([], done, Member(all[i], child.value));
        node := Put(node, all[i], child.value);
        done := done + [Member(all[i], child.value)];
      }
      assert all[..|all|] == all;
      return Success(Obj(node));
    }

    /** buildPeers(): a node per org and peer, keyed `{org}-{peer}`; the first failing node ends both loops. */
    method BuildPeers(fs: FileSystem) returns (r: Result<Json, BuildError>)
      requires orgs.Some? && root.Some?
      ensures r == PeersSection(Snapshot(), fs)
    {
      var all := orgs.value;
      ghost var f := OrgPeerEntries(Snapshot(), fs);
      var node: seq<Member> := [];
      ghost var done: seq<Member> := [];
      for i := 0 to |all|
        invariant Collect(all[..i], f) == Success(done)
        invariant node == PutAll([], done)
      {
        var next := AddOrgPeers(fs, all[i], node, done);
        CollectStep(all, i, f);
        if next.Failure? {
          return Failure(next.error);
        }
        node := next.value;
        done := done + f(all[i]).value;
      }
      assert all[..|all|] == all;
      return Success(Obj(node));
    }

    /** The inner loop of buildPeers(): the nodes of one org's peers added to the section built so far. */
    method AddOrgPeers(fs: FileSystem, org: string, node0: seq<Member>, ghost done: seq<Member>)
      returns (r: Result<seq<Member>, BuildError>)
      requires root.Some? && node0 == PutAll([], done)
      ensures var e := OrgPeerEntries(Snapshot(), fs)(org);
        && (e.Failure? ==> r == Failure(e.error))
        && (e.Success? ==> r == Success(PutAll([], done + e.value)))
    {
      var ps := Peers(peers);
      ghost var key, nodes := PeerIdIn(org), PeerNodes(Snapshot(), fs, org);
      var node := node0;
      ghost var inner: seq<Member> := [];
      assert done + inner == done;
      for k := 0 to |ps|
        invariant Collect(ps[..k], Entry(key, nodes)) == Success(inner)
        invariant node == PutAll([], done + inner)
      {
        var name := org + "-" + ps[k];
        var child := PeerNode(Snapshot(), fs, org, ps[k]);
        assert child == nodes(ps[k]) && name == key(ps[k]);
        EntryStep(ps, k, key, nodes, inner);
        if child.Failure? {
          return Failure(child.error);
        }
        ghost var m := Member(name, child.value);
        PutAllSnoc([], done + inner, m);
        AppendOne(done, inner, m);
        node := Put(node, name, child.value);
        inner := inner + [m];
      }
      assert ps[..|ps|] == ps;
      return Success(node);
    }

    /** buildCertificateAuthorities(): one `ca.{org}` node per org. */
    method BuildCertificateAuthorities(fs: FileSystem) returns (r: Result<Json, BuildError>)
      requires orgs.Some? && root.Some?
      ensures r == CertificateAuthoritiesSection(Snapshot(), fs)
    {
      var all := orgs.value;
      var node: seq<Member> := [];
      ghost var done: seq<Member> := [];
      for i := 0 to |all|
        invariant Collect(all[..i], CaEntry(Snapshot(), fs)) == Success(done)
        invariant node == PutAll([], done)
      {
        var child := CaNode(Snapshot(), fs, all[i]);
        EntryStep(all, i, CaKey(), CaNodes(Snapshot(), fs), done);
        if child.Failure? {
          return Failure(child.error);
        }
        PutAllSnoc([], done, Member("ca." + all[i], child.value));
        node := Put(node, "ca." + all[i], child.value);
        done := done + [Member("ca." + all[i], child.value)];
      }
      assert all[..|all|] == all;
      return Success(Obj(node));
    }
  }
}
