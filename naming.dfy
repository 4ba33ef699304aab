/**
 * Identifier synthesis: Java's decimal rendering of an int, and the names
 * `peer{i}`, `orderer{i}`, `{org}-{peer}`, `ca.{org}` and `{org}MSP`.
 */
module Naming {

  predicate IsDigit(c: char) {
    '0' <= c <= '9'
  }

  predicate AllDigits(s: string) {
    forall i :: 0 <= i < |s| ==> IsDigit(s[i])
  }

  function DigitChar(d: nat): (c: char)
    requires d < 10
    ensures IsDigit(c) && (c as int) - ('0' as int) == d
  {
    (('0' as int) + d) as char
  }

  /** Decimal digits of `n` without leading zeros, as `"" + n` renders a non-negative Java int. */
  function NatToString(n: nat): (s: string)
    ensures |s| >= 1 && AllDigits(s)
    ensures s[0] == '0' ==> n == 0
    ensures |s| == 1 || s[0] != '0'
  {
    if n < 10 then [DigitChar(n)] else NatToString(n / 10) + [DigitChar(n % 10)]
  }

  /** `"" + n` for any int: a minus sign before the digits of a negative value. */
  function IntToString(n: int): (s: string)
    ensures |s| >= 1
    ensures n >= 0 <==> AllDigits(s)
    ensures n >= 0 ==> DigitsValue(s) == n
    ensures n < 0 ==> s[0] == '-' && AllDigits(s[1..]) && DigitsValue(s[1..]) == -n
    ensures n >= 0 ==> |s| == 1 || s[0] != '0'
    ensures n < 0 ==> |s| >= 2 && s[1] != '0'
  {
    if n < 0 then
      var s := "-" + NatToString(-n);
      assert !IsDigit(s[0]);
      assert s[1..] == NatToString(-n);
      DigitsValueOfNatToString(-n);
      s
    else
      DigitsValueOfNatToString(n);
      NatToString(n)
  }

  /** The value of a string of decimal digits (the inverse of NatToString). */
  function DigitsValue(s: string): nat
    requires AllDigits(s)
  {
    if s == [] then 0
    else DigitsValue(s[..|s| - 1]) * 10 + ((s[|s| - 1] as int) - ('0' as int))
  }

  lemma {:induction false} DigitsValueOfNatToString(n: nat)
    ensures DigitsValue(NatToString(n)) == n
  {
    if n >= 10 {
      var s := NatToString(n);
      assert s[..|s| - 1] == NatToString(n / 10);
      DigitsValueOfNatToString(n / 10);
    }
  }

  /** Distinct indices are rendered as distinct strings. */
  lemma NatToStringInjective(m: nat, n: nat)
    requires NatToString(m) == NatToString(n)
    ensures m == n
  {
    DigitsValueOfNatToString(m);
    DigitsValueOfNatToString(n);
  }

  function PeerName(i: nat): string {
    "peer" + NatToString(i)
  }

  function OrdererName(i: nat): string {
    "orderer" + NatToString(i)
  }

  /** The composite key `{org}-{peer}` of a peer in the peers and channel sections. */
  function PeerId(org: string, peer: string): string {
    org + "-" + peer
  }

  function CaName(org: string): string {
    "ca." + org
  }

  function MspId(org: string): string {
    org + "MSP"
  }

  /** getPeers(): the names of peers 0 .. n-1; an IntStream range that is empty when n <= 0. */
  function Peers(n: int): (ps: seq<string>)
    ensures |ps| == if n > 0 then n else 0
    ensures forall i :: 0 <= i < |ps| ==> ps[i] == PeerName(i)
  {
    if n <= 0 then [] else seq(n, i requires 0 <= i < n => PeerName(i))
  }

  /** getOrderers(): one orderer name per organization. */
  function Orderers(count: nat): (os: seq<string>)
    ensures |os| == count
    ensures forall i :: 0 <= i < count ==> os[i] == OrdererName(i)
  {
    seq(count, i requires 0 <= i < count => OrdererName(i))
  }

  lemma PrefixCancel(p: string, a: string, b: string)
    requires p + a == p + b
    ensures a == b
  {
    assert a == (p + a)[|p|..] && b == (p + b)[|p|..];
  }

  lemma PeerNameInjective(i: nat, j: nat)
    requires PeerName(i) == PeerName(j)
    ensures i == j
  {
    PrefixCancel("peer", NatToString(i), NatToString(j));
    NatToStringInjective(i, j);
  }

  lemma OrdererNameInjective(i: nat, j: nat)
    requires OrdererName(i) == OrdererName(j)
    ensures i == j
  {
    PrefixCancel("orderer", NatToString(i), NatToString(j));
    NatToStringInjective(i, j);
  }

  /** getPeers() and getOrderers() never repeat a name. */
  lemma NamesDistinct(n: int, count: nat)
    ensures forall i, j :: 0 <= i < j < |Peers(n)| ==> Peers(n)[i] != Peers(n)[j]
    ensures forall i, j :: 0 <= i < j < count ==> Orderers(count)[i] != Orderers(count)[j]
  {
    forall i, j | 0 <= i < j < |Peers(n)| ensures Peers(n)[i] != Peers(n)[j] {
      if Peers(n)[i] == Peers(n)[j] {
        PeerNameInjective(i, j);
      }
    }
    forall i, j | 0 <= i < j < count ensures Orderers(count)[i] != Orderers(count)[j] {
      if Orderers(count)[i] == Orderers(count)[j] {
        OrdererNameInjective(i, j);
      }
    }
  }

  /** The four names the channel's role table recognises belong to peers 0..3 and to no other index. */
  lemma RoleNames(i: nat)
    ensures PeerName(i) == "peer0" <==> i == 0
    ensures PeerName(i) == "peer1" <==> i == 1
    ensures PeerName(i) == "peer2" <==> i == 2
    ensures PeerName(i) == "peer3" <==> i == 3
  {
    assert NatToString(0) == "0" && NatToString(1) == "1";
    assert NatToString(2) == "2" && NatToString(3) == "3";
    assert "peer0" == PeerName(0) && "peer1" == PeerName(1);
    assert "peer2" == PeerName(2) && "peer3" == PeerName(3);
    if PeerName(i) == PeerName(0) { PeerNameInjective(i, 0); }
    if PeerName(i) == PeerName(1) { PeerNameInjective(i, 1); }
    if PeerName(i) == PeerName(2) { PeerNameInjective(i, 2); }
    if PeerName(i) == PeerName(3) { PeerNameInjective(i, 3); }
  }

  /**
   * `{org}-peer{i}` determines both the organization and the index: the
   * digits after the last "-peer" cannot contain a '-', whatever the
   * organization names are.
   */
  lemma PeerIdInjective(o1: string, i1: nat, o2: string, i2: nat)
    requires PeerId(o1, PeerName(i1)) == PeerId(o2, PeerName(i2))
    ensures o1 == o2 && i1 == i2
  {
    var d1, d2 := NatToString(i1), NatToString(i2);
    var t1, t2 := "-peer" + d1, "-peer" + d2;
    var s := o1 + t1;
    assert PeerId(o1, PeerName(i1)) == s;
    assert PeerId(o2, PeerName(i2)) == o2 + t2;
    if |d1| < |d2| {
      SuffixDash(o1, d1, o2, d2);
    } else if |d2| < |d1| {
      SuffixDash(o2, d2, o1, d1);
    } else {
      assert |o1| == |o2|;
      assert o1 == s[..|o1|] == o2;
      PrefixCancel(o1, t1, t2);
      PrefixCancel("-peer", d1, d2);
      NatToStringInjective(i1, i2);
    }
  }

  lemma SuffixDash(o1: string, d1: string, o2: string, d2: string)
    requires AllDigits(d1) && AllDigits(d2) && |d1| < |d2|
    ensures o1 + ("-peer" + d1) != o2 + ("-peer" + d2)
  {
    var s1, s2 := o1 + ("-peer" + d1), o2 + ("-peer" + d2);
    if |s1| == |s2| {
      var q := |o1|;
      assert s1[q] == '-';
      var t := |d2| - |d1|;
      assert q == |o2| + t;
      assert s2[q] == ("-peer" + d2)[t];
      if t < 5 {
        assert ("-peer" + d2)[t] == "-peer"[t];
      } else {
        assert ("-peer" + d2)[t] == d2[t - 5];
      }
    }
  }
}
