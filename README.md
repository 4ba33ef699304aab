# BbeNetworkBuilder topology expansion, in Dafny

This project models the topology expansion engine of the Hyperledger Fabric
connection-profile builder `BbeNetworkBuilder`. The builder is a fluent object.
Its setters collect the following:

- a network name;
- an organization list;
- a channel;
- the `usePem` flag;
- a root directory of crypto material;
- a client organization;
- two nested override maps, one for URLs and one for ports.

The peer count is fixed at 4. `build()` checks its configuration, in order: name, orgs, channel, root.
It then expands the configuration into a JSON connection descriptor. The descriptor has
three scalar members and six sections: client, channels, organizations,
orderers, peers and certificateAuthorities.

The modules are:

- `Json` — a Gson `JsonObject` as an association list. `add` on an existing key
  replaces the value in place; a new key is appended.
- `Naming` — the synthesised identifiers: `peer{i}`, `orderer{i}`, `{org}-peer{i}`,
  `ca.{org}` and `{org}MSP`. Also `getPeers()` and `getOrderers()`, and the injectivity
  facts that make section keys distinct.
- `Overrides` — the `urls`/`ports` maps, the setters' effect on them,
  and the fallback chains of `getUrl` and `getPort`.
- `Credentials` — the credential path templates and an abstract file system:
  - a map from path to optional contents, where `None` means the file exists but is unreadable;
  - a map from directory to its listing.

  Also the uneven read policies, and the one-key `{"path"}`/`{"pem"}` credential objects.
- `Topology` — the builder's configuration as a value, the checks of `build()`,
  and each section as a function of the configuration and the file system.
  The loops of the organizations, orderers, peers and CA sections are the fold
  `Collect`, in which the first failing step wins. The channel's role loops
  cannot fail and are the plain concatenation `RoleEntries`.
- `Folds`, `Facts`, `SectionFacts`, `BuildFacts` — what the sections and
  the whole descriptor contain, proved about those functions.
- `Builder` — the class `NetworkBuilder` with the builder's fields.
  - Each setter updates one field, or one nested map, and returns the builder.
  - `Build` and the `build*` methods fill their accumulators in loops, as the source does.
  - Each method is proved equal to the section function it implements.

The model follows the code as written, including its quirks. These are proved as lemmas:

- an empty organization list passes the checks;
- an orderer's address is looked up with the orderer's own name as the organization;
- a peer's port is looked up only under the organization key `"*"`;
- peers with index 4 or more get an empty role record in the channel;
- the retry options that `buildChannels` assembles are never attached, so `policies` is always empty.

The peer count has no setter in the source. It stays at its initial value 4.

All source paths below are relative to the repository root.

## Model

| member | source | states |
|---|---|---|
| Builder.NetworkBuilder.constructor | fabric-network-builder-bbe/src/main/java/org/ecsoya/fabric/builder/BbeNetworkBuilder.java:27-43 | A fresh builder has every reference field null, 4 peers, `usePem` true and empty override maps. |
| Builder.NetworkBuilder.Root | fabric-network-builder-bbe/src/main/java/org/ecsoya/fabric/builder/BbeNetworkBuilder.java:45-48 | `root(r)` changes only the root field and returns the same builder. |
| Builder.NetworkBuilder.Name | fabric-network-builder-bbe/src/main/java/org/ecsoya/fabric/builder/BbeNetworkBuilder.java:50-53 | `name(n)` changes only the name and returns the same builder. |
| Builder.NetworkBuilder.UsePem | fabric-network-builder-bbe/src/main/java/org/ecsoya/fabric/builder/BbeNetworkBuilder.java:55-58 | `usePem(b)` changes only the credential mode and returns the same builder. |
| Builder.NetworkBuilder.Url | fabric-network-builder-bbe/src/main/java/org/ecsoya/fabric/builder/BbeNetworkBuilder.java:60-71 | `url(org, peer, u)` changes only the URL map, and changes it as `PutOverride` does. All other fields are unchanged. |
| Builder.NetworkBuilder.Port | fabric-network-builder-bbe/src/main/java/org/ecsoya/fabric/builder/BbeNetworkBuilder.java:73-84 | `port(org, peer, n)` changes only the port map, and changes it as `PutOverride` does. All other fields are unchanged. |
| Builder.NetworkBuilder.Orgs | fabric-network-builder-bbe/src/main/java/org/ecsoya/fabric/builder/BbeNetworkBuilder.java:86-89 | `orgs(...)` changes only the organization list and returns the same builder. |
| Builder.NetworkBuilder.Channel | fabric-network-builder-bbe/src/main/java/org/ecsoya/fabric/builder/BbeNetworkBuilder.java:91-94 | `channel(c)` changes only the channel and returns the same builder. |
| Builder.NetworkBuilder.Client | fabric-network-builder-bbe/src/main/java/org/ecsoya/fabric/builder/BbeNetworkBuilder.java:96-99 | `client(c)` changes only the client organization and returns the same builder. |
| Builder.NetworkBuilder.Build | fabric-network-builder-bbe/src/main/java/org/ecsoya/fabric/builder/BbeNetworkBuilder.java:101-146 | The imperative `build()` returns exactly `Topology.Build` of the builder's current fields and the file system. |
| Builder.NetworkBuilder.BuildChannels | fabric-network-builder-bbe/src/main/java/org/ecsoya/fabric/builder/BbeNetworkBuilder.java:417-479 | The orderers loop and the org × peer role loops produce exactly `ChannelsSection`. |
| Builder.NetworkBuilder.BuildOrganizations | fabric-network-builder-bbe/src/main/java/org/ecsoya/fabric/builder/BbeNetworkBuilder.java:289-300 | The loop over orgs yields `OrganizationsSection`: the first failing org node is the error, and otherwise one node per org is put under the org's name. |
| Builder.NetworkBuilder.BuildOrgNode | fabric-network-builder-bbe/src/main/java/org/ecsoya/fabric/builder/BbeNetworkBuilder.java:302-334 | For any `numOfPeers`, the result is `OrgNode` with that peer count, including the loop that builds the peer-id array. |
| Builder.NetworkBuilder.BuildOrderers | fabric-network-builder-bbe/src/main/java/org/ecsoya/fabric/builder/BbeNetworkBuilder.java:262-287 | The loop over `getOrderers()` yields exactly `OrderersSection`. |
| Builder.NetworkBuilder.BuildPeers | fabric-network-builder-bbe/src/main/java/org/ecsoya/fabric/builder/BbeNetworkBuilder.java:230-260 | The org × peer nested loop yields exactly `PeersSection`. |
| Builder.NetworkBuilder.AddOrgPeers | fabric-network-builder-bbe/src/main/java/org/ecsoya/fabric/builder/BbeNetworkBuilder.java:234-257 | The inner loop of `buildPeers` for one org either adds that org's peer entries to the accumulator or stops with the first peer node's error. |
| Builder.NetworkBuilder.BuildCertificateAuthorities | fabric-network-builder-bbe/src/main/java/org/ecsoya/fabric/builder/BbeNetworkBuilder.java:148-192 | The loop over orgs yields exactly `CertificateAuthoritiesSection`. |
| Topology.Check | fabric-network-builder-bbe/src/main/java/org/ecsoya/fabric/builder/BbeNetworkBuilder.java:101-115 | The checks pass iff name, orgs, a non-empty channel and an existing root are all present. Otherwise the error is a configuration error. |
| Topology.Build | fabric-network-builder-bbe/src/main/java/org/ecsoya/fabric/builder/BbeNetworkBuilder.java:101-146 | A failed check is the result and no tree is produced. A built descriptor passed the checks and has exactly nine top-level members. |
| Overrides.PutOverride | fabric-network-builder-bbe/src/main/java/org/ecsoya/fabric/builder/BbeNetworkBuilder.java:60-84 | The org's inner map is created if absent. The value is stored under the peer, or under the org name when the peer is null. Every other entry of both levels is unchanged. |
| Overrides.OverrideLastWins | fabric-network-builder-bbe/src/main/java/org/ecsoya/fabric/builder/BbeNetworkBuilder.java:60-84 | Writing the same (org, peer) twice leaves the map as if only the second write had happened. |
| Overrides.GetUrl | fabric-network-builder-bbe/src/main/java/org/ecsoya/fabric/builder/BbeNetworkBuilder.java:194-210 | Succeeds iff the org has a map holding the peer key (`"*"` for a null peer), the org name or `"*"`. The result is one of the map's values. No map or an empty map gives the "for org" error. A non-empty map without those keys gives the "for peer … in org" error naming the key tried first. |
| Overrides.UrlPrecedence | fabric-network-builder-bbe/src/main/java/org/ecsoya/fabric/builder/BbeNetworkBuilder.java:199-208 | The exact key wins over the org-name key, which wins over `"*"`. |
| Overrides.NullPeerPrefersWildcard | fabric-network-builder-bbe/src/main/java/org/ecsoya/fabric/builder/BbeNetworkBuilder.java:199-203 | With a null peer, a `"*"` entry beats an org-name entry. |
| Overrides.OrgWideOverrideResolvesEveryPeer | fabric-network-builder-bbe/src/main/java/org/ecsoya/fabric/builder/BbeNetworkBuilder.java:194-210 | A URL set with a null peer on a fresh org is found for every peer and for a null peer. |
| Overrides.PeerOverrideThenWildcard | fabric-network-builder-bbe/src/main/java/org/ecsoya/fabric/builder/BbeNetworkBuilder.java:194-210 | After a per-peer override and a `"*"` override, that peer resolves to its own URL and every other peer resolves to the `"*"` URL, including a peer named like the org. |
| Overrides.NoOverrideFails | fabric-network-builder-bbe/src/main/java/org/ecsoya/fabric/builder/BbeNetworkBuilder.java:195-198 | An org with no map, or an empty map, fails with the "for org" message. |
| Overrides.GetPort | fabric-network-builder-bbe/src/main/java/org/ecsoya/fabric/builder/BbeNetworkBuilder.java:212-224 | Never fails. Returns the stored port under the peer key (the org name for a null peer) when present, and the default otherwise, including when the org has no map. |
| Overrides.PeerPortIgnoresOrgOverrides | fabric-network-builder-bbe/src/main/java/org/ecsoya/fabric/builder/BbeNetworkBuilder.java:238 | A port set for a real organization, for one peer or for the org as a whole, changes no peer's port, because peers are looked up under `"*"`. |
| Overrides.PeerPortFromWildcardOverride | fabric-network-builder-bbe/src/main/java/org/ecsoya/fabric/builder/BbeNetworkBuilder.java:238 | `port("*", p, n)` sets peer p's port to n. |
| Naming.IntToString | fabric-network-builder-bbe/src/main/java/org/ecsoya/fabric/builder/BbeNetworkBuilder.java:238 | Renders an int as decimal text with no leading zero: the digits of its value when non-negative, and otherwise a minus sign followed by the digits of its magnitude. |
| Naming.NatToStringInjective | fabric-network-builder-bbe/src/main/java/org/ecsoya/fabric/builder/BbeNetworkBuilder.java:227 | Distinct indices render as distinct decimal strings. |
| Naming.Peers | fabric-network-builder-bbe/src/main/java/org/ecsoya/fabric/builder/BbeNetworkBuilder.java:226-228 | `getPeers()` is `peer0` .. `peer{n-1}` in order, and empty when n <= 0. |
| Naming.Orderers | fabric-network-builder-bbe/src/main/java/org/ecsoya/fabric/builder/BbeNetworkBuilder.java:413-415 | `getOrderers()` is exactly `orgs.length` names `orderer{i}`, in order. |
| Naming.PeerNameInjective | fabric-network-builder-bbe/src/main/java/org/ecsoya/fabric/builder/BbeNetworkBuilder.java:227 | Distinct peer indices give distinct peer names. |
| Naming.OrdererNameInjective | fabric-network-builder-bbe/src/main/java/org/ecsoya/fabric/builder/BbeNetworkBuilder.java:414 | Distinct orderer indices give distinct orderer names. |
| Naming.NamesDistinct | fabric-network-builder-bbe/src/main/java/org/ecsoya/fabric/builder/BbeNetworkBuilder.java:226-228 | Neither `getPeers()` nor `getOrderers()` ever repeats a name. |
| Naming.RoleNames | fabric-network-builder-bbe/src/main/java/org/ecsoya/fabric/builder/BbeNetworkBuilder.java:435-455 | `peer{i}` equals `"peer0"` .. `"peer3"` exactly for i = 0 .. 3. |
| Naming.PeerIdInjective | fabric-network-builder-bbe/src/main/java/org/ecsoya/fabric/builder/BbeNetworkBuilder.java:236 | `{org}-peer{i}` determines both the org and i, even when org names contain dashes and digits. |
| Credentials.CaCertPathFacts | fabric-network-builder-bbe/src/main/java/org/ecsoya/fabric/builder/BbeNetworkBuilder.java:336-338 | The CA certificate path lies in the org's directory, and distinct orgs have distinct CA certificate paths (both directions). |
| Credentials.OrdererCertPathFacts | fabric-network-builder-bbe/src/main/java/org/ecsoya/fabric/builder/BbeNetworkBuilder.java:359-361 | An orderer's TLS certificate path lies in that orderer's directory under `org-orderer/orderers/`, and distinct orderers have distinct paths. |
| Credentials.PeerCertPathFacts | fabric-network-builder-bbe/src/main/java/org/ecsoya/fabric/builder/BbeNetworkBuilder.java:372-374 | A peer's TLS certificate path lies in `{org}/peers/{peer}/`, and distinct peers of one org have distinct paths. |
| Credentials.AdminCertPathFacts | fabric-network-builder-bbe/src/main/java/org/ecsoya/fabric/builder/BbeNetworkBuilder.java:387-389 | The admin certificate path lies in `{org}/users/`, and distinct orgs have distinct admin certificate paths. |
| Credentials.AdminPrivateKeyPathFacts | fabric-network-builder-bbe/src/main/java/org/ecsoya/fabric/builder/BbeNetworkBuilder.java:409-411 | The keystore path lies in `{org}/users/`, differs from the admin certificate path, and distinct orgs have distinct keystores. |
| Credentials.ReadTolerant | fabric-network-builder-bbe/src/main/java/org/ecsoya/fabric/builder/BbeNetworkBuilder.java:340-348 | A CA or admin certificate read gives the file's text, or null exactly when the file is absent or unreadable. |
| Credentials.ReadStrict | fabric-network-builder-bbe/src/main/java/org/ecsoya/fabric/builder/BbeNetworkBuilder.java:350-357 | An orderer or peer certificate read succeeds iff the file is readable. Otherwise it fails with a read error naming the path. |
| Credentials.AdminPrivateKeyPem | fabric-network-builder-bbe/src/main/java/org/ecsoya/fabric/builder/BbeNetworkBuilder.java:391-407 | A missing or empty keystore gives null. An existing non-directory fails. Otherwise the first listed file is read, and an unreadable first file aborts. |
| Credentials.CaTlsCerts | fabric-network-builder-bbe/src/main/java/org/ecsoya/fabric/builder/BbeNetworkBuilder.java:183-188 | A single-key credential object. In path mode it holds the CA certificate path. In pem mode the pem is the file's text when the read succeeds, and null iff it fails. |
| Credentials.AdminSignedCert | fabric-network-builder-bbe/src/main/java/org/ecsoya/fabric/builder/BbeNetworkBuilder.java:318-324 | A single-key credential object. In path mode it holds the admin certificate path. In pem mode the pem is the file's text when the read succeeds, and null iff it fails. |
| Credentials.AdminPrivateKey | fabric-network-builder-bbe/src/main/java/org/ecsoya/fabric/builder/BbeNetworkBuilder.java:310-316 | Path mode always gives the keystore path. Pem mode fails exactly when reading the key fails, and otherwise holds what the keystore read gives: the first key's text or null. |
| Credentials.OrdererTlsCerts | fabric-network-builder-bbe/src/main/java/org/ecsoya/fabric/builder/BbeNetworkBuilder.java:277-282 | Fails iff pem mode is on and the orderer certificate is unreadable, with the path in the error. Otherwise it is a single-key credential object, holding the path in path mode and the file's text in pem mode. |
| Credentials.PeerTlsCerts | fabric-network-builder-bbe/src/main/java/org/ecsoya/fabric/builder/BbeNetworkBuilder.java:249-254 | The same as for orderers, for the peer's certificate. |
| Facts.OrgNodeShape | fabric-network-builder-bbe/src/main/java/org/ecsoya/fabric/builder/BbeNetworkBuilder.java:302-334 | An org node fails iff the admin key read fails in pem mode. Otherwise it holds `mspid = {org}MSP`, `certificateAuthorities = [ca.{org}]`, the admin key from `AdminPrivateKey`, the certificate from `AdminSignedCert`, and a peers array (the org's peer ids) iff the peer count is positive. |
| Facts.OrdererNodeShape | fabric-network-builder-bbe/src/main/java/org/ecsoya/fabric/builder/BbeNetworkBuilder.java:266-284 | The orderer's address is resolved under its own name first, and its failure is the node's failure. Next the TLS read may fail. A built node has `grpcs://{url}:7050`, `tlsCACerts` from `OrdererTlsCerts`, and the orderer's name as `grpcOptions.hostnameOverride`. |
| Facts.PeerNodeShape | fabric-network-builder-bbe/src/main/java/org/ecsoya/fabric/builder/BbeNetworkBuilder.java:236-256 | A peer node resolves the org's URL for that peer, then reads its TLS certificate. A built node has `grpcs://{url}:{port}` with the `"*"` port for that peer, and `tlsCACerts` from `PeerTlsCerts`. Both `grpcOptions.ssl-target-name-override` and `grpcOptions.hostnameOverride` are the peer id `{org}-{peer}`. |
| Facts.CaNodeShape | fabric-network-builder-bbe/src/main/java/org/ecsoya/fabric/builder/BbeNetworkBuilder.java:159-192 | A CA node fails iff the org's URL for a null peer fails, with the same error. A built node has `https://{url}:7054` and `tlsCACerts` from `CaTlsCerts`. Both `grpcOptions.ssl-target-name-override` and `grpcOptions.hostnameOverride` are `ca.{org}`. |
| Facts.ClientSectionFacts | fabric-network-builder-bbe/src/main/java/org/ecsoya/fabric/builder/BbeNetworkBuilder.java:481-512 | The client section has exactly the keys logging, connection and organization. `organization` holds the value set by `client(c)`, or null when it was never set. Logging is at level debug. Nothing but the organization depends on the configuration. |
| Facts.RoleTable | fabric-network-builder-bbe/src/main/java/org/ecsoya/fabric/builder/BbeNetworkBuilder.java:434-455 | peer0 has all four roles. peer1, peer2 and peer3 have only chaincodeQuery, ledgerQuery and eventSource respectively. Every later peer gets an empty record. |
| Facts.OrgPeerIdsFacts | fabric-network-builder-bbe/src/main/java/org/ecsoya/fabric/builder/BbeNetworkBuilder.java:325-332 | An org's peer ids are distinct, one per peer, and are exactly `{org}-peer{i}`. |
| Facts.PeerIdsAcrossOrgs | fabric-network-builder-bbe/src/main/java/org/ecsoya/fabric/builder/BbeNetworkBuilder.java:233-236 | For distinct orgs, all peer ids are distinct. There are `|orgs| * peers` of them, exactly the (org, index) pairs. |
| Json.PutAllLookup | fabric-network-builder-bbe/src/main/java/org/ecsoya/fabric/builder/BbeNetworkBuilder.java:294-298 | After members are added one by one, a key finds the value every member with that key carries, however often the key repeats. |
| Folds.CollectMembers | fabric-network-builder-bbe/src/main/java/org/ecsoya/fabric/builder/BbeNetworkBuilder.java:151-154 | Every member of a successful section loop came from the step of one of its elements. |
| Folds.EntryLookup | fabric-network-builder-bbe/src/main/java/org/ecsoya/fabric/builder/BbeNetworkBuilder.java:151-154 | When no two elements share a key, each element's key finds that element's node in the section, repeated elements included. |
| Folds.CollectFailureIff | fabric-network-builder-bbe/src/main/java/org/ecsoya/fabric/builder/BbeNetworkBuilder.java:151-154 | A section loop fails iff one of its steps fails. |
| Folds.CollectStep | fabric-network-builder-bbe/src/main/java/org/ecsoya/fabric/builder/BbeNetworkBuilder.java:151-154 | One loop step either appends its members or ends the loop with its own error. |
| Folds.EntrySection | fabric-network-builder-bbe/src/main/java/org/ecsoya/fabric/builder/BbeNetworkBuilder.java:151-154 | With distinct keys, a successful section loop holds one member per element, and each element's key finds that element's node. |
| SectionFacts.ChannelNodeFacts | fabric-network-builder-bbe/src/main/java/org/ecsoya/fabric/builder/BbeNetworkBuilder.java:420-475 | The channel node's `orderers` equals `getOrderers()`, its `peers` is the role table, and its `policies` is empty. |
| SectionFacts.RoleEntriesDistinct | fabric-network-builder-bbe/src/main/java/org/ecsoya/fabric/builder/BbeNetworkBuilder.java:431-460 | For distinct orgs, the channel role entries have distinct keys, `|orgs| * peers` of them. |
| SectionFacts.RoleLookups | fabric-network-builder-bbe/src/main/java/org/ecsoya/fabric/builder/BbeNetworkBuilder.java:431-460 | For any org list, repeated names included, every `{org}-peer{i}` in the channel's peers object finds peer i's role record. |
| SectionFacts.ChannelSectionFacts | fabric-network-builder-bbe/src/main/java/org/ecsoya/fabric/builder/BbeNetworkBuilder.java:417-479 | The channels section has exactly the one channel key, and every `{org}-peer{i}` finds peer i's role record. For distinct orgs, the role table has `|orgs| * peers` entries in loop order. |
| SectionFacts.OrganizationsSectionFacts | fabric-network-builder-bbe/src/main/java/org/ecsoya/fabric/builder/BbeNetworkBuilder.java:289-300 | Fails iff some org node fails. Otherwise each org finds its node, repeated names included. For distinct orgs, the keys are exactly the orgs. |
| SectionFacts.OrderersFailure | fabric-network-builder-bbe/src/main/java/org/ecsoya/fabric/builder/BbeNetworkBuilder.java:262-287 | The orderers section fails iff some `orderer{i}` node fails. |
| SectionFacts.OrderersSectionFacts | fabric-network-builder-bbe/src/main/java/org/ecsoya/fabric/builder/BbeNetworkBuilder.java:262-287 | The keys are exactly `orderer0` .. `orderer{|orgs|-1}`, each holding its node, even when org names repeat. |
| SectionFacts.OrgPeerEntriesKeys | fabric-network-builder-bbe/src/main/java/org/ecsoya/fabric/builder/BbeNetworkBuilder.java:234-257 | One org's peer entries are keyed by its peer ids, in order. |
| SectionFacts.OrgPeerEntriesFailure | fabric-network-builder-bbe/src/main/java/org/ecsoya/fabric/builder/BbeNetworkBuilder.java:234-257 | One org's peer loop fails iff one of its peer nodes fails. |
| SectionFacts.PeerKeysInjective | fabric-network-builder-bbe/src/main/java/org/ecsoya/fabric/builder/BbeNetworkBuilder.java:236 | A peers-section key `{org}-{peer}` determines the org and the peer among the generated peer names. |
| SectionFacts.PeersLookups | fabric-network-builder-bbe/src/main/java/org/ecsoya/fabric/builder/BbeNetworkBuilder.java:230-260 | In a built peers section, each `{org}-peer{i}` finds the node of peer i of that org, even when org names repeat. |
| SectionFacts.PeersSectionFacts | fabric-network-builder-bbe/src/main/java/org/ecsoya/fabric/builder/BbeNetworkBuilder.java:230-260 | Fails iff some peer node fails. Otherwise each `{org}-peer{i}` finds that peer's node. For distinct orgs, the section has `|orgs| * peers` distinct keys, exactly the `{org}-peer{i}`. |
| SectionFacts.CaNameInjective | fabric-network-builder-bbe/src/main/java/org/ecsoya/fabric/builder/BbeNetworkBuilder.java:153 | Distinct orgs have distinct `ca.{org}` keys. |
| SectionFacts.CertificateAuthoritiesSectionFacts | fabric-network-builder-bbe/src/main/java/org/ecsoya/fabric/builder/BbeNetworkBuilder.java:148-157 | Fails iff some org has no URL for a null peer. Otherwise each `ca.{org}` finds that org's CA node. For distinct orgs, there is one entry per org. |
| BuildFacts.ValidationOrder | fabric-network-builder-bbe/src/main/java/org/ecsoya/fabric/builder/BbeNetworkBuilder.java:101-115 | The checks run in the order name, orgs, channel (null or empty), root (null or missing), and the first that fails is the result. |
| BuildFacts.SectionOrder | fabric-network-builder-bbe/src/main/java/org/ecsoya/fabric/builder/BbeNetworkBuilder.java:126-145 | Past the checks, the first failing section in the order organizations, orderers, peers, CAs is the error. The build succeeds iff all four succeed. |
| BuildFacts.BuildTree | fabric-network-builder-bbe/src/main/java/org/ecsoya/fabric/builder/BbeNetworkBuilder.java:116-145 | A built descriptor has exactly the nine keys in source order, each holding its section, with the name and the fixed client section. |
| BuildFacts.EmptyOrgsAccepted | fabric-network-builder-bbe/src/main/java/org/ecsoya/fabric/builder/BbeNetworkBuilder.java:105-107 | An empty org list passes and yields empty organizations, orderers, peers and CA sections. |
| BuildFacts.UnaddressedOrgFails | fabric-network-builder-bbe/src/main/java/org/ecsoya/fabric/builder/BbeNetworkBuilder.java:151-162 | Any listed org without a URL for a null peer makes `build()` fail. |
| BuildFacts.OrdererAddressedUnderItsOwnName | fabric-network-builder-bbe/src/main/java/org/ecsoya/fabric/builder/BbeNetworkBuilder.java:264-268 | In path mode with at least one org and no URL entry for `orderer0`, `build()` fails with the "for org: orderer0" error, whatever the peer orgs' URLs. |
| BuildFacts.PathModeNodes | fabric-network-builder-bbe/src/main/java/org/ecsoya/fabric/builder/BbeNetworkBuilder.java:184-188 | In path mode, no node depends on the contents of the file system. |
| BuildFacts.PathModeReadsNoFiles | fabric-network-builder-bbe/src/main/java/org/ecsoya/fabric/builder/BbeNetworkBuilder.java:101-146 | In path mode, `build()` depends on the file system only through whether the root exists. |

## Left out

- File I/O is abstracted:
  - `File.exists`, `Files.readAllBytes` and `listFiles` are a map from path to optional contents and a map from directory to its listing.
  - The listing order the platform gives is taken as that listing's order.
  - Text encoding is not modelled.
- Gson and serialisation: JSON trees are a datatype. Numbers are integers, because every number the builder writes is an integer. YAML or JSON output is not part of this model.
- Null arguments are handled as follows:
  - A null name, orgs, channel, root or client is an `Option`.
  - A null org key passed to `url`/`port` is not modelled.
  - A null URL value passed to `url` is not modelled either.
  - A null element inside the `orgs` array is not modelled.
- Java's 32-bit `int` is not modelled. Ports are unbounded integers and are rendered with a sign when negative. The peer count has no setter in the source, so the model keeps it at its initial value 4, while the section functions are stated for any count.
- `Builder.NetworkBuilder.Orgs` does not capture aliasing of the orgs array. `orgs(...)` keeps the caller's array by reference, so the source's `build()` sees any change the caller makes to that array later. The model stores a copy of the list.
- Aliasing of the inner `HashMap`s is not captured. `url`/`port` update the inner map in place in the source; the model replaces it with an updated copy, which gives the same observable state because no inner map is shared.
- Exception messages are kept as text, but the exception class and its cause chain are not:
  - a failed read is `ReadFailed(path)`;
  - a keystore whose `listFiles()` is null is `NullListing(path)`.
- `Builder.NetworkBuilder.AddOrgPeers`: the inner loop of `buildPeers` is a separate method in the model. This keeps each proof small; the loop order and the effect are the source's.
- The commented-out code of the source is not modelled: the orderer organization node, event URLs and the credential store.
