/**
 * Credential references: the conventional paths of the crypto material under
 * the root directory, reading it from an abstract file system, and the
 * one-key `{"path": …}` / `{"pem": …}` objects the descriptor holds.
 */
module Credentials {
  import opened Wrappers
  import opened Errors
  import opened Json

  /**
   * The file system as build() sees it. `files[p] == None` is a file that
   * exists but cannot be read; `dirs[d]` is what `listFiles()` returns for
   * the directory d, as full paths, in the order the platform lists them.
   */
  datatype FileSystem = FileSystem(files: map<string, Option<string>>, dirs: map<string, seq<string>>)

  predicate Exists(fs: FileSystem, p: string) {
    p in fs.files || p in fs.dirs
  }

  /** `new File(root, rel)` */
  function Resolve(root: string, rel: string): string {
    root + "/" + rel
  }

  /** `Files.readAllBytes`: the contents, or None where it throws an IOException. */
  function ReadAll(fs: FileSystem, p: string): Option<string> {
    if p in fs.files then fs.files[p] else None
  }

  function CaCertPath(org: string): string {
    org + "/ca/ca." + org + "-cert.pem"
  }

  /** Takes the orderer's name, not an organization: every orderer's material lies under org-orderer. */
  function OrdererCertPath(orderer: string): string {
    "org-orderer/orderers/" + orderer + "/msp/tlscacerts/tlsca.org-orderer-cert.pem"
  }

  function PeerCertPath(org: string, peer: string): string {
    org + "/peers/" + peer + "/msp/tlscacerts/tlsca." + org + "-cert.pem"
  }

  function AdminCertPath(org: string): string {
    org + "/users/Admin@" + org + "/msp/admincerts/Admin@" + org + "-cert.pem"
  }

  function AdminPrivateKeyPath(org: string): string {
    org + "/users/Admin@" + org + "/msp/keystore"
  }

  // The path templates follow the layout cryptogen writes: each organization's
  // material lies in the directory named after it, and each template names a
  // different file for each organization, orderer or peer.

  /** The CA certificate lies in the org's directory, and no two orgs share it. */
  lemma CaCertPathFacts(a: string, b: string)
    ensures CaCertPath(a)[..|a| + 1] == a + "/"
    ensures CaCertPath(a) == CaCertPath(b) <==> a == b
  {
    if CaCertPath(a) == CaCertPath(b) {
      assert CaCertPath(a)[..|a|] == a && CaCertPath(b)[..|b|] == b;
    }
  }

  /** An orderer's TLS certificate lies in its own directory under org-orderer/orderers, and no two orderers share it. */
  lemma OrdererCertPathFacts(p: string, q: string)
    ensures OrdererCertPath(p)[..21 + |p|] == "org-orderer/orderers/" + p
    ensures OrdererCertPath(p)[21 + |p|] == '/'
    ensures OrdererCertPath(p) == OrdererCertPath(q) <==> p == q
  {
    var tail := "/msp/tlscacerts/tlsca.org-orderer-cert.pem";
    var dir, dir' := "org-orderer/orderers/" + p, "org-orderer/orderers/" + q;
    assert OrdererCertPath(p) == dir + tail && OrdererCertPath(q) == dir' + tail;
    assert OrdererCertPath(p)[..|dir|] == dir;
    assert |dir| == 21 + |p| && OrdererCertPath(p)[|dir|] == tail[0];
    if OrdererCertPath(p) == OrdererCertPath(q) {
      assert |dir| == |dir'|;
      assert OrdererCertPath(q)[..|dir'|] == dir';
      assert p == dir[21..] && q == dir'[21..];
    }
  }

  /** A peer's TLS certificate lies in its org's peers directory, and no two peers of an org share it. */
  lemma PeerCertPathFacts(org: string, p: string, q: string)
    ensures PeerCertPath(org, p)[..|org| + 7 + |p| + 1] == org + "/peers/" + p + "/"
    ensures PeerCertPath(org, p) == PeerCertPath(org, q) <==> p == q
  {
    if PeerCertPath(org, p) == PeerCertPath(org, q) {
      var n := |org| + 7;
      assert PeerCertPath(org, p)[n..n + |p|] == p && PeerCertPath(org, q)[n..n + |q|] == q;
    }
  }

  /** The admin certificate lies in the org's users directory, and no two orgs share it. */
  lemma AdminCertPathFacts(a: string, b: string)
    ensures AdminCertPath(a)[..|a| + 7] == a + "/users/"
    ensures AdminCertPath(a) == AdminCertPath(b) <==> a == b
  {
    if AdminCertPath(a) == AdminCertPath(b) {
      assert AdminCertPath(a)[..|a|] == a && AdminCertPath(b)[..|b|] == b;
    }
  }

  /** The keystore lies in the org's users directory, is not the admin certificate, and no two orgs share it. */
  lemma AdminPrivateKeyPathFacts(a: string, b: string)
    ensures AdminPrivateKeyPath(a)[..|a| + 7] == a + "/users/"
    ensures AdminPrivateKeyPath(a) != AdminCertPath(a)
    ensures AdminPrivateKeyPath(a) == AdminPrivateKeyPath(b) <==> a == b
  {
    assert |AdminPrivateKeyPath(a)| != |AdminCertPath(a)|;
    if AdminPrivateKeyPath(a) == AdminPrivateKeyPath(b) {
      assert AdminPrivateKeyPath(a)[..|a|] == a && AdminPrivateKeyPath(b)[..|b|] == b;
    }
  }

  /** Tolerant read (getCaCertPem, getAdminCertPem): an unreadable file gives a null pem. */
  function ReadTolerant(fs: FileSystem, root: string, rel: string): (r: Option<string>)
    ensures r.Some? ==> Resolve(root, rel) in fs.files && fs.files[Resolve(root, rel)] == r
    ensures r.None? <==> !(Resolve(root, rel) in fs.files && fs.files[Resolve(root, rel)].Some?)
  {
    ReadAll(fs, Resolve(root, rel))
  }

  /** Strict read (getOrdererCertPem, getPeerCertPem): an unreadable file aborts the build. */
  function ReadStrict(fs: FileSystem, root: string, rel: string): (r: Result<string, BuildError>)
    ensures r.Success? <==> Resolve(root, rel) in fs.files && fs.files[Resolve(root, rel)].Some?
    ensures r.Success? ==> r.value == fs.files[Resolve(root, rel)].value
    ensures r.Failure? ==> r.error == ReadFailed(Resolve(root, rel))
  {
    var p := Resolve(root, rel);
    match ReadAll(fs, p)
    case Some(text) => Success(text)
    case None => Failure(ReadFailed(p))
  }

  /**
   * getAdminPrivateKeyPem: the first file that the keystore directory lists.
   * A missing or empty directory gives a null pem; an unreadable first file
   * aborts; a keystore that exists but is not a directory makes
   * `listFiles()` null and its `.length` throws.
   */
  function AdminPrivateKeyPem(fs: FileSystem, root: string, org: string): (r: Result<Option<string>, BuildError>)
    ensures var dir := Resolve(root, AdminPrivateKeyPath(org));
      && (!Exists(fs, dir) ==> r == Success(None))
      && (dir in fs.dirs && fs.dirs[dir] == [] ==> r == Success(None))
      && (Exists(fs, dir) && dir !in fs.dirs ==> r == Failure(NullListing(dir)))
      && (dir in fs.dirs && fs.dirs[dir] != [] ==>
            (r.Success? <==> ReadAll(fs, fs.dirs[dir][0]).Some?) &&
            (r.Success? ==> r.value == ReadAll(fs, fs.dirs[dir][0])) &&
            (r.Failure? ==> r.error == ReadFailed(fs.dirs[dir][0])))
  {
    var dir := Resolve(root, AdminPrivateKeyPath(org));
    if !Exists(fs, dir) then Success(None)
    else if dir !in fs.dirs then Failure(NullListing(dir))
    else if fs.dirs[dir] == [] then Success(None)
    else
      var keyFile := fs.dirs[dir][0];
      match ReadAll(fs, keyFile)
      case Some(text) => Success(Some(text))
      case None => Failure(ReadFailed(keyFile))
  }

  /** A credential object: exactly one member, "pem" in pem mode and "path" otherwise. */
  predicate IsCredential(j: Json, usePem: bool) {
    j.Obj? && |j.members| == 1 && j.members[0].key == (if usePem then "pem" else "path")
  }

  function PathRef(path: string): Json {
    Obj([Member("path", Str(path))])
  }

  /** `addProperty("pem", s)` stores a JSON null when s is null. */
  function PemRef(pem: Option<string>): Json {
    Obj([Member("pem", if pem.Some? then Str(pem.value) else Null)])
  }

  /** tlsCACerts of a certificate authority. */
  function CaTlsCerts(usePem: bool, fs: FileSystem, root: string, org: string): (r: Json)
    ensures IsCredential(r, usePem)
    ensures !usePem ==> r.members[0].value == Str(CaCertPath(org))
    ensures usePem ==> (r.members[0].value.Null? <==> ReadTolerant(fs, root, CaCertPath(org)).None?)
    ensures usePem && ReadTolerant(fs, root, CaCertPath(org)).Some? ==>
      r.members[0].value == Str(fs.files[Resolve(root, CaCertPath(org))].value)
  {
    if !usePem then PathRef(CaCertPath(org)) else PemRef(ReadTolerant(fs, root, CaCertPath(org)))
  }

  /** signedCert of an organization's admin. */
  function AdminSignedCert(usePem: bool, fs: FileSystem, root: string, org: string): (r: Json)
    ensures IsCredential(r, usePem)
    ensures !usePem ==> r.members[0].value == Str(AdminCertPath(org))
    ensures usePem ==> (r.members[0].value.Null? <==> ReadTolerant(fs, root, AdminCertPath(org)).None?)
    ensures usePem && ReadTolerant(fs, root, AdminCertPath(org)).Some? ==>
      r.members[0].value == Str(fs.files[Resolve(root, AdminCertPath(org))].value)
  {
    if !usePem then PathRef(AdminCertPath(org)) else PemRef(ReadTolerant(fs, root, AdminCertPath(org)))
  }

  /** adminPrivateKey of an organization: the keystore directory path, or the first key's text. */
  function AdminPrivateKey(usePem: bool, fs: FileSystem, root: string, org: string): (r: Result<Json, BuildError>)
    ensures !usePem ==> r == Success(PathRef(AdminPrivateKeyPath(org)))
    ensures r.Success? ==> IsCredential(r.value, usePem)
    ensures usePem ==> (r.Failure? <==> AdminPrivateKeyPem(fs, root, org).Failure?)
    ensures usePem && r.Success? ==> r.value == PemRef(AdminPrivateKeyPem(fs, root, org).value)
  {
    if !usePem then Success(PathRef(AdminPrivateKeyPath(org)))
    else
      var pem :- AdminPrivateKeyPem(fs, root, org);
      Success(PemRef(pem))
  }

  /** tlsCACerts of an orderer: reading is attempted only in pem mode, and its failure is fatal. */
  function OrdererTlsCerts(usePem: bool, fs: FileSystem, root: string, orderer: string): (r: Result<Json, BuildError>)
    ensures r.Failure? <==> usePem && ReadAll(fs, Resolve(root, OrdererCertPath(orderer))).None?
    ensures r.Failure? ==> r.error == ReadFailed(Resolve(root, OrdererCertPath(orderer)))
    ensures r.Success? ==> IsCredential(r.value, usePem)
    ensures r.Success? && !usePem ==> r.value.members[0].value == Str(OrdererCertPath(orderer))
    ensures r.Success? && usePem ==> r.value.members[0].value == Str(fs.files[Resolve(root, OrdererCertPath(orderer))].value)
  {
    if !usePem then Success(PathRef(OrdererCertPath(orderer)))
    else
      var pem :- ReadStrict(fs, root, OrdererCertPath(orderer));
      Success(PemRef(Some(pem)))
  }

  /** tlsCACerts of a peer: as for orderers, a failed read is fatal. */
  function PeerTlsCerts(usePem: bool, fs: FileSystem, root: string, org: string, peer: string): (r: Result<Json, BuildError>)
    ensures r.Failure? <==> usePem && ReadAll(fs, Resolve(root, PeerCertPath(org, peer))).None?
    ensures r.Failure? ==> r.error == ReadFailed(Resolve(root, PeerCertPath(org, peer)))
    ensures r.Success? ==> IsCredential(r.value, usePem)
    ensures r.Success? && !usePem ==> r.value.members[0].value == Str(PeerCertPath(org, peer))
    ensures r.Success? && usePem ==> r.value.members[0].value == Str(fs.files[Resolve(root, PeerCertPath(org, peer))].value)
  {
    if !usePem then Success(PathRef(PeerCertPath(org, peer)))
    else
      var pem :- ReadStrict(fs, root, PeerCertPath(org, peer));
      Success(PemRef(Some(pem)))
  }
}
