/**
 * Address resolution: the nested `urls` and `ports` override maps that the
 * builder's `url` and `port` setters fill, and the lookups `getUrl` and
 * `getPort` that the section builders use.
 */
module Overrides {
  import opened Wrappers
  import opened Errors

  /** org -> (peer, org name or "*") -> value */
  type Overrides<V> = map<string, map<string, V>>
  type UrlMap = Overrides<string>
  type PortMap = Overrides<int>

  const Wildcard := "*"

  /** The inner key a setter writes: the peer, or the organization's own name when the peer is null. */
  function SetterKey(org: string, peer: Option<string>): string {
    if peer.None? then org else peer.value
  }

  /** The effect of `url(org, peer, v)` / `port(org, peer, v)` on its map. */
  function PutOverride<V>(m: Overrides<V>, org: string, peer: Option<string>, v: V): (r: Overrides<V>)
    ensures r.Keys == m.Keys + {org}
    ensures r[org].Keys == (if org in m then m[org].Keys else {}) + {SetterKey(org, peer)}
    ensures r[org][SetterKey(org, peer)] == v
    ensures forall o :: o in m && o != org ==> r[o] == m[o]
    ensures forall k :: org in m && k in m[org] && k != SetterKey(org, peer) ==> r[org][k] == m[org][k]
  {
    var inner := if org in m then m[org] else map[];
    m[org := inner[SetterKey(org, peer) := v]]
  }

  /** Setting the same (org, peer) twice keeps only the second value. */
  lemma OverrideLastWins<V>(m: Overrides<V>, org: string, peer: Option<string>, v1: V, v2: V)
    ensures PutOverride(PutOverride(m, org, peer, v1), org, peer, v2) == PutOverride(m, org, peer, v2)
  {
    var a := PutOverride(PutOverride(m, org, peer, v1), org, peer, v2);
    var b := PutOverride(m, org, peer, v2);
    assert a[org] == b[org];
  }

  function UrlMissingForOrg(org: string): BuildError {
    UrlNotFound("Unnable to find URL for org: " + org)
  }

  function UrlMissingForPeer(org: string, peer: string): BuildError {
    UrlNotFound("Unnable to find URL for peer: " + peer + " in org: " + org)
  }

  /** The key getUrl tries first: the peer, or "*" when the peer is null. */
  function LookupKey(peer: Option<string>): string {
    if peer.None? then Wildcard else peer.value
  }

  /**
   * getUrl(org, peer): the first of the peer key (or "*"), the org name and
   * "*" that the org's map holds; an error when the org has no map, an empty
   * map, or none of the three keys.
   */
  function GetUrl(urls: UrlMap, org: string, peer: Option<string>): (r: Result<string, BuildError>)
    ensures r.Success? <==>
      org in urls && (LookupKey(peer) in urls[org] || org in urls[org] || Wildcard in urls[org])
    ensures r.Success? ==> r.value in urls[org].Values
    ensures r.Failure? ==> r.error.UrlNotFound?
    ensures r.Failure? && (org !in urls || urls[org] == map[]) ==> r.error == UrlMissingForOrg(org)
    ensures r.Failure? && org in urls && urls[org] != map[] ==> r.error == UrlMissingForPeer(org, LookupKey(peer))
  {
    if org !in urls || urls[org] == map[] then Failure(UrlMissingForOrg(org))
    else
      var m := urls[org];
      var key := LookupKey(peer);
      if key in m then Success(m[key])
      else if org in m then Success(m[org])
      else if Wildcard in m then Success(m[Wildcard])
      else Failure(UrlMissingForPeer(org, key))
  }

  /** The precedence of getUrl: an exact entry beats the org-name entry, which beats "*". */
  lemma UrlPrecedence(urls: UrlMap, org: string, peer: Option<string>)
    requires org in urls
    ensures LookupKey(peer) in urls[org] ==> GetUrl(urls, org, peer) == Success(urls[org][LookupKey(peer)])
    ensures LookupKey(peer) !in urls[org] && org in urls[org] ==>
      GetUrl(urls, org, peer) == Success(urls[org][org])
    ensures LookupKey(peer) !in urls[org] && org !in urls[org] && Wildcard in urls[org] ==>
      GetUrl(urls, org, peer) == Success(urls[org][Wildcard])
  {
  }

  /** With a null peer the "*" entry is tried before the org-name entry. */
  lemma NullPeerPrefersWildcard(urls: UrlMap, org: string)
    requires org in urls && Wildcard in urls[org] && org in urls[org]
    ensures GetUrl(urls, org, None) == Success(urls[org][Wildcard])
  {
  }

  /**
   * An org-wide override set with a null peer is found for every peer of an
   * org that had no other override, through the org-name fallback.
   */
  lemma OrgWideOverrideResolvesEveryPeer(urls: UrlMap, org: string, u: string, peer: Option<string>)
    requires org !in urls
    ensures GetUrl(PutOverride(urls, org, None, u), org, peer) == Success(u)
  {
    var m := PutOverride(urls, org, None, u)[org];
    assert m == map[org := u];
  }

  /**
   * An override for one peer and one for "*": the peer resolves to its own,
   * every other peer to the "*" one, including a peer named like the org
   * (the overridden peer itself must not be named like the org).
   */
  lemma PeerOverrideThenWildcard(urls: UrlMap, org: string, p: string, q: string, a: string, b: string)
    requires org !in urls
    requires p != Wildcard && p != org && q != p
    ensures var u := PutOverride(PutOverride(urls, org, Some(p), a), org, Some(Wildcard), b);
      GetUrl(u, org, Some(p)) == Success(a) && GetUrl(u, org, Some(q)) == Success(b)
  {
    var u := PutOverride(PutOverride(urls, org, Some(p), a), org, Some(Wildcard), b);
    assert u[org] == map[p := a, Wildcard := b];
  }

  /** An org with no override at all makes getUrl fail with the "for org" message. */
  lemma NoOverrideFails(urls: UrlMap, org: string, peer: Option<string>)
    requires org !in urls || urls[org] == map[]
    ensures GetUrl(urls, org, peer) == Failure(UrlMissingForOrg(org))
  {
  }

  /** getPort(org, peer, default): the stored port under the setter's key, else the default; never fails. */
  function GetPort(ports: PortMap, org: string, peer: Option<string>, default: int): (r: int)
    ensures org in ports && SetterKey(org, peer) in ports[org] ==> r == ports[org][SetterKey(org, peer)]
    ensures !(org in ports && SetterKey(org, peer) in ports[org]) ==> r == default
  {
    if org !in ports then default
    else
      var key := SetterKey(org, peer);
      if key in ports[org] then ports[org][key] else default
  }

  /** The port of a peer is looked up under the literal org "*" only. */
  function PeerPort(ports: PortMap, peer: string): int {
    GetPort(ports, Wildcard, Some(peer), 7051)
  }

  /**
   * A port set with `port(org, peer, n)` for a real organization, for a peer
   * or for the org as a whole, changes no peer's port: only entries under the
   * org key "*" do.
   */
  lemma PeerPortIgnoresOrgOverrides(ports: PortMap, org: string, peer: Option<string>, n: int, q: string)
    requires org != Wildcard
    ensures PeerPort(PutOverride(ports, org, peer, n), q) == PeerPort(ports, q)
  {
  }

  /** Whereas `port("*", p, n)` sets exactly that peer's port. */
  lemma PeerPortFromWildcardOverride(ports: PortMap, p: string, n: int)
    ensures PeerPort(PutOverride(ports, Wildcard, Some(p), n), p) == n
  {
  }
}
