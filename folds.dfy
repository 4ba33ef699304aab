/** Facts about Collect, the fold that every section loop of build() follows. */
module Folds {
  import opened Wrappers
  import opened Errors
  import opened Json
  import opened Topology

  /** Once a prefix of the loop fails, the whole loop fails with the same error. */
  lemma {:induction false} CollectFailureExtends(xs: seq<string>, k: nat, f: string -> Result<seq<Member>, BuildError>)
    requires k <= |xs|
    requires Collect(xs[..k], f).Failure?
    ensures Collect(xs, f) == Collect(xs[..k], f)
  {
    if k < |xs| {
      var n := |xs| - 1;
      assert xs[..n][..k] == xs[..k];
      CollectFailureExtends(xs[..n], k, f);
    } else {
      assert xs[..k] == xs;
    }
  }

  /** One more step of the loop: the members of step i are appended, or its error ends the loop. */
  lemma CollectStep(xs: seq<string>, i: nat, f: string -> Result<seq<Member>, BuildError>)
    requires i < |xs|
    requires Collect(xs[..i], f).Success?
    ensures f(xs[i]).Success? ==> Collect(xs[..i + 1], f) == Success(Collect(xs[..i], f).value + f(xs[i]).value)
    ensures f(xs[i]).Failure? ==> Collect(xs, f) == Failure(f(xs[i]).error)
  {
    assert xs[..i + 1][..i] == xs[..i];
    if f(xs[i]).Failure? {
      CollectFailureExtends(xs, i + 1, f);
    }
  }

  /** The loop fails exactly when one of its steps fails. */
  lemma {:induction false} CollectFailureIff(xs: seq<string>, f: string -> Result<seq<Member>, BuildError>)
    ensures Collect(xs, f).Failure? <==> exists x :: x in xs && f(x).Failure?
  {
    if Collect(xs, f).Success? {
      CollectContains(xs, f);
    } else {
      var n := |xs| - 1;
      if Collect(xs[..n], f).Failure? {
        CollectFailureIff(xs[..n], f);
        var x :| x in xs[..n] && f(x).Failure?;
        assert x in xs;
      } else {
        assert f(xs[n]).Failure?;
      }
    }
  }

  /** Two loops whose steps agree on every element agree. */
  lemma {:induction false} CollectExt(xs: seq<string>, f: string -> Result<seq<Member>, BuildError>, g: string -> Result<seq<Member>, BuildError>)
    requires forall x :: x in xs ==> f(x) == g(x)
    ensures Collect(xs, f) == Collect(xs, g)
  {
    if xs != [] {
      var n := |xs| - 1;
      assert forall x :: x in xs[..n] ==> x in xs;
      CollectExt(xs[..n], f, g);
      assert f(xs[n]) == g(xs[n]);
    }
  }

  /** The keys that the steps contribute, one step after the other. */
  function FlatKeys(xs: seq<string>, k: string -> seq<string>): seq<string> {
    if xs == [] then [] else FlatKeys(xs[..|xs| - 1], k) + k(xs[|xs| - 1])
  }

  /** When every step's members carry known keys, the loop's members carry their concatenation. */
  lemma {:induction false} CollectKeys(xs: seq<string>, f: string -> Result<seq<Member>, BuildError>, k: string -> seq<string>)
    requires forall x :: x in xs ==> f(x).Success? ==> Keys(f(x).value) == k(x)
    ensures Collect(xs, f).Success? ==> Keys(Collect(xs, f).value) == FlatKeys(xs, k)
  {
    if xs != [] {
      var n := |xs| - 1;
      assert forall x :: x in xs[..n] ==> x in xs;
      CollectKeys(xs[..n], f, k);
      if Collect(xs, f).Success? {
        KeysAppend(Collect(xs[..n], f).value, f(xs[n]).value);
      }
    }
  }

  /** Every member of a successful loop came from the step of one of its elements. */
  lemma {:induction false} CollectMembers(xs: seq<string>, f: string -> Result<seq<Member>, BuildError>, m: Member)
    requires Collect(xs, f).Success? && m in Collect(xs, f).value
    ensures exists x :: x in xs && f(x).Success? && m in f(x).value
  {
    var n := |xs| - 1;
    if m in Collect(xs[..n], f).value {
      CollectMembers(xs[..n], f, m);
      var x :| x in xs[..n] && f(x).Success? && m in f(x).value;
      assert x in xs;
    } else {
      assert xs[n] in xs;
    }
  }

  /** A successful loop succeeded at every step and kept every member each step produced. */
  lemma {:induction false} CollectContains(xs: seq<string>, f: string -> Result<seq<Member>, BuildError>)
    requires Collect(xs, f).Success?
    ensures forall x :: x in xs ==> f(x).Success?
    ensures forall x, m :: x in xs && m in f(x).value ==> m in Collect(xs, f).value
  {
    if xs != [] {
      var n := |xs| - 1;
      CollectContains(xs[..n], f);
      assert forall x :: x in xs ==> x in xs[..n] || x == xs[n];
    }
  }

  lemma {:induction false} FlatKeysMembership(xs: seq<string>, k: string -> seq<string>, y: string)
    ensures y in FlatKeys(xs, k) <==> exists x :: x in xs && y in k(x)
  {
    if xs != [] {
      var n := |xs| - 1;
      FlatKeysMembership(xs[..n], k, y);
      assert forall x :: x in xs <==> x in xs[..n] || x == xs[n];
    }
  }

  lemma {:induction false} FlatKeysLength(xs: seq<string>, k: string -> seq<string>, len: nat)
    requires forall x :: x in xs ==> |k(x)| == len
    ensures |FlatKeys(xs, k)| == |xs| * len
  {
    if xs != [] {
      var n := |xs| - 1;
      assert forall x :: x in xs[..n] ==> x in xs;
      FlatKeysLength(xs[..n], k, len);
      assert |xs| * len == n * len + len;
    }
  }

  predicate Disjoint(a: seq<string>, b: seq<string>) {
    forall y :: y in a ==> y !in b
  }

  /** Distinct steps with distinct, pairwise disjoint keys give distinct keys overall. */
  lemma {:induction false} FlatKeysDistinct(xs: seq<string>, k: string -> seq<string>)
    requires Distinct(xs)
    requires forall x :: x in xs ==> Distinct(k(x))
    requires forall x, x' :: x in xs && x' in xs && x != x' ==> Disjoint(k(x), k(x'))
    ensures Distinct(FlatKeys(xs, k))
  {
    if xs != [] {
      var n := |xs| - 1;
      var init, last := xs[..n], xs[n];
      assert forall x :: x in init ==> x in xs;
      assert Distinct(init) by {
        forall i, j | 0 <= i < j < |init| ensures init[i] != init[j] {
          assert init[i] == xs[i] && init[j] == xs[j];
        }
      }
      FlatKeysDistinct(init, k);
      var a, b := FlatKeys(init, k), k(last);
      forall y | y in a ensures y !in b {
        FlatKeysMembership(init, k, y);
        var x :| x in init && y in k(x);
        var i :| 0 <= i < n && init[i] == x;
        assert xs[i] == x && x != last;
      }
      DistinctJoin(a, b);
    }
  }

  lemma DistinctJoin(a: seq<string>, b: seq<string>)
    requires Distinct(a) && Distinct(b) && Disjoint(a, b)
    ensures Distinct(a + b)
  {
    forall i, j | 0 <= i < j < |a + b| ensures (a + b)[i] != (a + b)[j] {
      if j < |a| {
      } else if i >= |a| {
        assert (a + b)[i] == b[i - |a|] && (a + b)[j] == b[j - |a|];
      } else {
        assert (a + b)[i] == a[i] && (a + b)[j] == b[j - |a|];
        assert a[i] in a && b[j - |a|] in b;
      }
    }
  }

  // ------------------------------------------------ loops of Entry steps

  /** A loop of Entry steps fails exactly when the node of one of its elements fails. */
  lemma EntryFailure(xs: seq<string>, key: string -> string, node: string -> Result<Json, BuildError>)
    ensures Collect(xs, Entry(key, node)).Failure? <==> exists x :: x in xs && node(x).Failure?
  {
    CollectFailureIff(xs, Entry(key, node));
    assert forall x :: Entry(key, node)(x).Failure? <==> node(x).Failure?;
  }

  /** The same, by position. */
  lemma EntryFailureAt(xs: seq<string>, key: string -> string, node: string -> Result<Json, BuildError>)
    ensures Collect(xs, Entry(key, node)).Failure? <==> exists i :: 0 <= i < |xs| && node(xs[i]).Failure?
  {
    EntryFailure(xs, key, node);
    if exists x :: x in xs && node(x).Failure? {
      var x :| x in xs && node(x).Failure?;
      var i :| 0 <= i < |xs| && xs[i] == x;
    }
  }

  /** One step of a loop of Entry steps: the element's member is appended, or its node's error ends the loop. */
  lemma EntryStep(xs: seq<string>, i: nat, key: string -> string, node: string -> Result<Json, BuildError>, done: seq<Member>)
    requires i < |xs| && Collect(xs[..i], Entry(key, node)) == Success(done)
    ensures node(xs[i]).Success? ==>
      Collect(xs[..i + 1], Entry(key, node)) == Success(done + [Member(key(xs[i]), node(xs[i]).value)])
    ensures node(xs[i]).Failure? ==> Collect(xs, Entry(key, node)) == Failure(node(xs[i]).error)
  {
    CollectStep(xs, i, Entry(key, node));
  }

  /** A loop of Entry steps that succeeds holds, in order, one member per element: its key and its node. */
  lemma {:induction false} CollectEntries(xs: seq<string>, key: string -> string, node: string -> Result<Json, BuildError>)
    requires Collect(xs, Entry(key, node)).Success?
    ensures |Collect(xs, Entry(key, node)).value| == |xs|
    ensures forall i :: 0 <= i < |xs| ==>
      node(xs[i]).Success? && Collect(xs, Entry(key, node)).value[i] == Member(key(xs[i]), node(xs[i]).value)
  {
    if xs != [] {
      var n := |xs| - 1;
      var f := Entry(key, node);
      CollectEntries(xs[..n], key, node);
      var init := Collect(xs[..n], f).value;
      assert Collect(xs, f).value == init + [Member(key(xs[n]), node(xs[n]).value)];
      forall i | 0 <= i < n ensures xs[..n][i] == xs[i] { }
    }
  }

  /** The member a successful loop of Entry steps holds for one of its elements. */
  lemma EntryAt(xs: seq<string>, key: string -> string, node: string -> Result<Json, BuildError>, i: nat)
    requires Collect(xs, Entry(key, node)).Success? && i < |xs|
    ensures node(xs[i]).Success? && Member(key(xs[i]), node(xs[i]).value) in Collect(xs, Entry(key, node)).value
  {
    CollectEntries(xs, key, node);
    assert Collect(xs, Entry(key, node)).value[i] == Member(key(xs[i]), node(xs[i]).value);
  }

  /** Every member of a successful loop of Entry steps is some element's key and node. */
  lemma EntryOf(xs: seq<string>, key: string -> string, node: string -> Result<Json, BuildError>, m: Member)
    requires Collect(xs, Entry(key, node)).Success? && m in Collect(xs, Entry(key, node)).value
    ensures exists i :: 0 <= i < |xs| && node(xs[i]).Success? && m == Member(key(xs[i]), node(xs[i]).value)
  {
    var es := Collect(xs, Entry(key, node)).value;
    CollectEntries(xs, key, node);
    var i :| 0 <= i < |es| && es[i] == m;
    assert node(xs[i]).Success? && m == Member(key(xs[i]), node(xs[i]).value);
  }

  /** The keys of a successful loop of Entry steps are its elements' keys, in order. */
  lemma EntryKeys(xs: seq<string>, key: string -> string, node: string -> Result<Json, BuildError>)
    requires Collect(xs, Entry(key, node)).Success?
    ensures |Keys(Collect(xs, Entry(key, node)).value)| == |xs|
    ensures forall i :: 0 <= i < |xs| ==> Keys(Collect(xs, Entry(key, node)).value)[i] == key(xs[i])
  {
    CollectEntries(xs, key, node);
  }

  /**
   * With a distinct key per element, putting the members of a successful loop
   * into an empty object keeps them as they are, and each element's key finds
   * that element's node.
   */
  lemma EntrySection(xs: seq<string>, key: string -> string, node: string -> Result<Json, BuildError>)
    requires Collect(xs, Entry(key, node)).Success?
    requires forall i, j :: 0 <= i < j < |xs| ==> key(xs[i]) != key(xs[j])
    ensures PutAll([], Collect(xs, Entry(key, node)).value) == Collect(xs, Entry(key, node)).value
    ensures forall x :: x in xs ==>
      node(x).Success? && Lookup(Collect(xs, Entry(key, node)).value, key(x)) == Some(node(x).value)
  {
    var es := Collect(xs, Entry(key, node)).value;
    CollectEntries(xs, key, node);
    var ks := Keys(es);
    assert Distinct(ks) by {
      forall i, j | 0 <= i < j < |ks| ensures ks[i] != ks[j] {
        assert ks[i] == key(xs[i]) && ks[j] == key(xs[j]);
      }
    }
    assert [] + es == es;
    PutAllFresh([], es);
    forall x | x in xs ensures node(x).Success? && Lookup(es, key(x)) == Some(node(x).value) {
      var i :| 0 <= i < |xs| && xs[i] == x;
      LookupMember(es, es[i]);
    }
  }

  /**
   * When no two elements share a key, each element's key finds that element's
   * node once the members of a successful loop are put into an empty object;
   * an element that occurs twice is put twice with the same node.
   */
  lemma EntryLookup(xs: seq<string>, key: string -> string, node: string -> Result<Json, BuildError>)
    requires Collect(xs, Entry(key, node)).Success?
    requires forall x, y :: x in xs && y in xs && key(x) == key(y) ==> x == y
    ensures forall x :: x in xs ==>
      node(x).Success? && Lookup(PutAll([], Collect(xs, Entry(key, node)).value), key(x)) == Some(node(x).value)
  {
    var es := Collect(xs, Entry(key, node)).value;
    CollectEntries(xs, key, node);
    forall x | x in xs ensures node(x).Success? && Lookup(PutAll([], es), key(x)) == Some(node(x).value) {
      var i :| 0 <= i < |xs| && xs[i] == x;
      assert es[i] in es;
      forall m | m in es && m.key == key(x) ensures m.value == node(x).value {
        var j :| 0 <= j < |es| && es[j] == m;
        assert xs[j] in xs;
      }
      PutAllLookup([], es, key(x), node(x).value);
    }
  }

  /**
   * A loop over xs whose step for x is itself a loop of Entry steps over ys:
   * when the pair (x, y) determines its key, every pair's key finds that
   * pair's node once all members are put into an empty object, even when
   * elements of xs repeat.
   */
  lemma NestedEntryLookup(xs: seq<string>, ys: seq<string>, f: string -> Result<seq<Member>, BuildError>,
                          key: string -> string -> string, node: string -> string -> Result<Json, BuildError>)
    requires forall x :: x in xs ==> f(x) == Collect(ys, Entry(key(x), node(x)))
    requires Collect(xs, f).Success?
    requires forall x, y, x', y' :: x in xs && x' in xs && y in ys && y' in ys && key(x)(y) == key(x')(y') ==> x == x' && y == y'
    ensures forall x, y :: x in xs && y in ys ==>
      node(x)(y).Success? && Lookup(PutAll([], Collect(xs, f).value), key(x)(y)) == Some(node(x)(y).value)
  {
    var es := Collect(xs, f).value;
    CollectContains(xs, f);
    forall x, y | x in xs && y in ys
      ensures node(x)(y).Success? && Lookup(PutAll([], es), key(x)(y)) == Some(node(x)(y).value)
    {
      var i :| 0 <= i < |ys| && ys[i] == y;
      EntryAt(ys, key(x), node(x), i);
      var k, v := key(x)(y), node(x)(y).value;
      forall m | m in es && m.key == k ensures m.value == v {
        CollectMembers(xs, f, m);
        var x' :| x' in xs && f(x').Success? && m in f(x').value;
        EntryOf(ys, key(x'), node(x'), m);
        var j :| 0 <= j < |ys| && node(x')(ys[j]).Success? && m == Member(key(x')(ys[j]), node(x')(ys[j]).value);
        assert ys[j] in ys;
      }
      PutAllLookup([], es, k, v);
    }
  }
}
