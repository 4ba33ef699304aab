/**
 * The JSON tree that Gson's JsonObject/JsonArray hold. An object is an
 * association list in insertion order; adding a key that is already present
 * replaces its value where it stands, as Gson's LinkedTreeMap does.
 */
module Json {
  import opened Wrappers

  datatype Json =
    | Null
    | Bool(b: bool)
    | Num(n: int)
    | Str(s: string)
    | Arr(items: seq<Json>)
    | Obj(members: seq<Member>)

  datatype Member = Member(key: string, value: Json)

  function Keys(ms: seq<Member>): seq<string> {
    seq(|ms|, i requires 0 <= i < |ms| => ms[i].key)
  }

  predicate Distinct(ks: seq<string>) {
    forall i, j :: 0 <= i < j < |ks| ==> ks[i] != ks[j]
  }

  /** The value stored under `k`, as JsonObject.get gives it. */
  function Lookup(ms: seq<Member>, k: string): Option<Json> {
    if ms == [] then None
    else if ms[0].key == k then Some(ms[0].value)
    else Lookup(ms[1..], k)
  }

  /** JsonObject.add(k, v): replace in place when `k` is present, append otherwise. */
  function Put(ms: seq<Member>, k: string, v: Json): seq<Member> {
    if ms == [] then [Member(k, v)]
    else if ms[0].key == k then [Member(k, v)] + ms[1..]
    else [ms[0]] + Put(ms[1..], k, v)
  }

  /** After add(k, v), get(k) is v and every other key reads as before. */
  lemma {:induction false} PutLookup(ms: seq<Member>, k: string, v: Json, k': string)
    ensures Lookup(Put(ms, k, v), k') == if k' == k then Some(v) else Lookup(ms, k')
  {
    if ms != [] && ms[0].key != k {
      var r := Put(ms, k, v);
      assert r[0] == ms[0] && r[1..] == Put(ms[1..], k, v);
      PutLookup(ms[1..], k, v, k');
    }
  }

  /** add(k, v) keeps the key order, appending `k` only when it is new. */
  lemma {:induction false} PutKeys(ms: seq<Member>, k: string, v: Json)
    ensures k in Keys(ms) ==> Keys(Put(ms, k, v)) == Keys(ms)
    ensures k !in Keys(ms) ==> Put(ms, k, v) == ms + [Member(k, v)]
  {
    if ms != [] {
      assert Keys(ms) == [ms[0].key] + Keys(ms[1..]);
      if ms[0].key != k {
        var t := Put(ms[1..], k, v);
        PutKeys(ms[1..], k, v);
        assert Put(ms, k, v) == [ms[0]] + t;
        assert Keys([ms[0]] + t) == [ms[0].key] + Keys(t);
        assert ms == [ms[0]] + ms[1..];
      } else {
        assert Keys(Put(ms, k, v)) == [k] + Keys(ms[1..]);
      }
    }
  }

  /** Adding the members `es` one after the other, as the builder's loops do. */
  function PutAll(ms: seq<Member>, es: seq<Member>): seq<Member> {
    if es == [] then ms
    else
      var last := es[|es| - 1];
      Put(PutAll(ms, es[..|es| - 1]), last.key, last.value)
  }

  /** Adding one more member after the others. */
  lemma PutAllSnoc(ms: seq<Member>, es: seq<Member>, e: Member)
    ensures PutAll(ms, es + [e]) == Put(PutAll(ms, es), e.key, e.value)
  {
    assert (es + [e])[..|es|] == es;
  }

  /**
   * After the members `es` are added one by one, get(k) is the value that
   * every member with key `k` carries, however often `k` repeats.
   */
  lemma {:induction false} PutAllLookup(ms: seq<Member>, es: seq<Member>, k: string, v: Json)
    requires Member(k, v) in es
    requires forall m :: m in es && m.key == k ==> m.value == v
    ensures Lookup(PutAll(ms, es), k) == Some(v)
  {
    var n := |es| - 1;
    var init, last := es[..n], es[n];
    assert es == init + [last];
    PutLookup(PutAll(ms, init), last.key, last.value, k);
    if last.key != k {
      assert Member(k, v) in init;
      assert forall m :: m in init ==> m in es;
      PutAllLookup(ms, init, k, v);
    }
  }

  lemma KeysAppend(a: seq<Member>, b: seq<Member>)
    ensures Keys(a + b) == Keys(a) + Keys(b)
  {
  }

  lemma DistinctSplit(a: seq<string>, b: seq<string>)
    requires Distinct(a + b)
    ensures Distinct(a) && Distinct(b)
    ensures forall x :: x in a ==> x !in b
  {
    forall i, j | 0 <= i < j < |a| ensures a[i] != a[j] {
      assert a[i] == (a + b)[i] && a[j] == (a + b)[j];
    }
    forall i, j | 0 <= i < j < |b| ensures b[i] != b[j] {
      assert b[i] == (a + b)[|a| + i] && b[j] == (a + b)[|a| + j];
    }
    forall x | x in a ensures x !in b {
      var i :| 0 <= i < |a| && a[i] == x;
      forall j | 0 <= j < |b| ensures b[j] != x {
        assert (a + b)[i] == a[i] && (a + b)[|a| + j] == b[j];
      }
    }
  }

  /** Members with pairwise distinct keys are added without any replacement. */
  lemma {:induction false} PutAllFresh(ms: seq<Member>, es: seq<Member>)
    requires Distinct(Keys(ms + es))
    ensures PutAll(ms, es) == ms + es
  {
    if es != [] {
      var n := |es| - 1;
      var init := es[..n];
      assert ms + es == (ms + init) + [es[n]];
      KeysAppend(ms + init, [es[n]]);
      DistinctSplit(Keys(ms + init), Keys([es[n]]));
      PutAllFresh(ms, init);
      PutKeys(ms + init, es[n].key, es[n].value);
      assert Keys([es[n]])[0] == es[n].key;
    }
  }

  /** The member at index i is what Lookup finds when no earlier member has its key. */
  lemma {:induction false} LookupAt(ms: seq<Member>, i: nat)
    requires i < |ms|
    requires forall j :: 0 <= j < i ==> ms[j].key != ms[i].key
    ensures Lookup(ms, ms[i].key) == Some(ms[i].value)
  {
    if i > 0 {
      assert ms[1..][i - 1] == ms[i];
      LookupAt(ms[1..], i - 1);
    }
  }

  /** get(k) is null when no member has key `k`. */
  lemma {:induction false} LookupAbsent(ms: seq<Member>, k: string)
    requires forall i :: 0 <= i < |ms| ==> ms[i].key != k
    ensures Lookup(ms, k) == None
  {
    if ms != [] {
      assert forall i :: 0 <= i < |ms| - 1 ==> ms[1..][i] == ms[i + 1];
      LookupAbsent(ms[1..], k);
    }
  }

  /** In an object with distinct keys, every member is what Lookup finds under its key. */
  lemma {:induction false} LookupMember(ms: seq<Member>, m: Member)
    requires Distinct(Keys(ms))
    requires m in ms
    ensures Lookup(ms, m.key) == Some(m.value)
  {
    if ms[0] != m {
      assert Keys(ms) == [ms[0].key] + Keys(ms[1..]);
      var j :| 0 <= j < |ms| && ms[j] == m;
      assert ms[0].key != m.key by {
        assert Keys(ms)[0] == ms[0].key && Keys(ms)[j] == m.key;
      }
      DistinctSplit([ms[0].key], Keys(ms[1..]));
      LookupMember(ms[1..], m);
    }
  }
}
