/** The ascending key order in which the stable B-tree map iterates, and
    sequences ordered by a key. */
module KeyOrder {
  import opened MamaTypes

  ghost predicate StrictlyIncreasing(ks: seq<u64>)
  {
    forall i, j :: 0 <= i < j < |ks| ==> ks[i] < ks[j]
  }

  /** The elements of `s` have strictly increasing keys. */
  ghost predicate IncreasingBy<V>(s: seq<V>, key: V -> u64)
  {
    forall i, j :: 0 <= i < j < |s| ==> key(s[i]) < key(s[j])
  }

  /** `k` is the largest element of `s`. */
  predicate IsMax(s: set<u64>, k: u64)
  {
    k in s && forall j :: j in s ==> j <= k
  }

  /** A non-empty finite set of numbers has a largest element. */
  lemma {:induction false} MaxExists(s: set<u64>)
    requires s != {}
    ensures exists k :: IsMax(s, k)
  {
    var x :| x in s;
    if s == {x} {
      assert IsMax(s, x);
    } else {
      var others := s - {x};
      MaxExists(others);
      var y :| IsMax(others, y);
      var top := if x <= y then y else x;
      forall j | j in s ensures j <= top {
        if j != x {
          assert j in others;
        }
      }
      assert IsMax(s, top);
    }
  }

  function MaxKey(s: set<u64>): (k: u64)
    requires s != {}
    ensures IsMax(s, k)
  {
    MaxExists(s);
    var k :| IsMax(s, k);
    k
  }

  /** `ks` lists the keys of `m` in ascending order, each once. */
  ghost predicate ListsKeys<V>(ks: seq<u64>, m: map<u64, V>)
  {
    && StrictlyIncreasing(ks)
    && (forall k :: k in ks <==> k in m)
    && |ks| == |m|
  }

  /** Listing the other keys and then the largest lists all of them. */
  lemma ListsKeysAppend<V>(ks: seq<u64>, m: map<u64, V>, k: u64)
    requires k in m && forall j :: j in m ==> j <= k
    requires ListsKeys(ks, m - {k})
    ensures ListsKeys(ks + [k], m)
  {
    var rest := m - {k};
    assert rest.Keys == m.Keys - {k};
    var ks' := ks + [k];
    forall i, j | 0 <= i < j < |ks'| ensures ks'[i] < ks'[j] {
      if j == |ks| {
        assert ks'[i] == ks[i] && ks[i] in rest;
      } else {
        assert ks'[i] == ks[i] && ks'[j] == ks[j];
      }
    }
  }

  /** The keys of `m` in the order the stable B-tree map iterates them. */
  function Ascending<V>(m: map<u64, V>): (ks: seq<u64>)
    ensures ListsKeys(ks, m)
    decreases |m|
  {
    if |m| == 0 then []
    else
      var k := MaxKey(m.Keys);
      var rest := m - {k};
      assert |rest| < |m| by { assert rest.Keys == m.Keys - {k}; }
      var ks := Ascending(rest);
      ListsKeysAppend(ks, m, k);
      ks + [k]
  }

  /** A key above every key of `m` lands at the end of the iteration order. */
  lemma AscendingInsertMax<V>(m: map<u64, V>, k: u64, v: V)
    requires forall j :: j in m ==> j < k
    ensures Ascending(m[k := v]) == Ascending(m) + [k]
  {
    var m' := m[k := v];
    var top := MaxKey(m'.Keys);
    assert k in m'.Keys;
    assert top == k;
    assert m' - {k} == m;
  }

  /** Two sequences ordered by the same key and holding the same elements
      are the same sequence. */
  lemma {:induction false} OrderedIsUnique<V>(a: seq<V>, b: seq<V>, key: V -> u64)
    requires IncreasingBy(a, key) && IncreasingBy(b, key)
    requires forall x :: x in a <==> x in b
    ensures a == b
    decreases |a|
  {
    // A non-empty side holds an element the other side must also hold.
    assert a != [] ==> a[0] in a;
    assert b != [] ==> b[0] in b;
    if a != [] && b != [] {
      var i :| 0 <= i < |b| && b[i] == a[0];
      var j :| 0 <= j < |a| && a[j] == b[0];
      assert key(a[0]) <= key(a[j]);
      assert key(b[0]) <= key(b[i]);
      assert i == 0;  // so a[0] == b[0]
      forall x ensures x in a[1..] <==> x in b[1..] {
        if x in a[1..] {
          var i :| 1 <= i < |a| && a[i] == x;
          assert key(x) > key(a[0]);
          assert x in b && x != b[0];
        }
        if x in b[1..] {
          var i :| 1 <= i < |b| && b[i] == x;
          assert key(x) > key(b[0]);
          assert x in a && x != a[0];
        }
      }
      OrderedIsUnique(a[1..], b[1..], key);
      assert a == [a[0]] + a[1..] && b == [b[0]] + b[1..];
    }
  }
}
