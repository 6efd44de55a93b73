/** Go leaves the order of a `range` over a map unspecified. The model fixes one legal order,
    ascending by character code, so that every loop over a map has a definite outcome. */
module KeyOrder {

  /** Lexicographic `a <= b` on strings. */
  predicate Below(a: string, b: string) {
    |a| == 0 || (|b| != 0 && (a[0] < b[0] || (a[0] == b[0] && Below(a[1..], b[1..]))))
  }

  lemma {:induction false} BelowAntisymmetric(a: string, b: string)
    requires Below(a, b) && Below(b, a)
    ensures a == b
  {
    if |a| != 0 && |b| != 0 {
      BelowAntisymmetric(a[1..], b[1..]);
      assert a == [a[0]] + a[1..] && b == [b[0]] + b[1..];
    }
  }

  lemma {:induction false} BelowTransitive(a: string, b: string, c: string)
    requires Below(a, b) && Below(b, c)
    ensures Below(a, c)
  {
    if |a| != 0 && |b| != 0 && |c| != 0 && a[0] == b[0] == c[0] {
      BelowTransitive(a[1..], b[1..], c[1..]);
    }
  }

  lemma {:induction false} BelowTotal(a: string, b: string)
    ensures Below(a, b) || Below(b, a)
  {
    if |a| != 0 && |b| != 0 && a[0] == b[0] {
      BelowTotal(a[1..], b[1..]);
    }
  }

  /** A non-empty finite set of strings has a least element. */
  lemma {:induction false} LeastExists(s: set<string>)
    requires s != {}
    ensures exists m :: m in s && forall x :: x in s ==> Below(m, x)
    decreases |s|
  {
    var y :| y in s;
    if s == {y} {
      assert forall x :: x in s ==> x == y;
      BelowTotal(y, y);
      assert y in s && forall x :: x in s ==> Below(y, x);
    } else {
      LeastExists(s - {y});
      var m :| m in s - {y} && forall x :: x in s - {y} ==> Below(m, x);
      BelowTotal(m, y);
      if Below(m, y) {
        assert m in s && forall x :: x in s ==> Below(m, x);
      } else {
        forall x | x in s ensures Below(y, x) {
          if x != y { BelowTransitive(y, m, x); } else { BelowTotal(y, y); }
        }
      }
    }
  }

  function Least(s: set<string>): (m: string)
    requires s != {}
    ensures m in s && forall x :: x in s ==> Below(m, x)
  {
    LeastExists(s);
    assert forall a, b :: Below(a, b) && Below(b, a) ==> a == b by {
      forall a, b | Below(a, b) && Below(b, a) ensures a == b { BelowAntisymmetric(a, b); }
    }
    var m :| m in s && forall x :: x in s ==> Below(m, x);
    m
  }

  /** The elements of `s` in ascending order. */
  function SortedKeys(s: set<string>): (r: seq<string>)
    ensures |r| == |s|
    decreases |s|
  {
    if s == {} then []
    else
      var m := Least(s);
      [m] + SortedKeys(s - {m})
  }

  /** SortedKeys lists each element of the set exactly once, in strictly ascending order. */
  lemma {:induction false} SortedKeysSpec(s: set<string>)
    ensures forall x :: x in s <==> x in SortedKeys(s)
    ensures forall i, j :: 0 <= i < j < |SortedKeys(s)| ==> SortedKeys(s)[i] != SortedKeys(s)[j] && Below(SortedKeys(s)[i], SortedKeys(s)[j])
    decreases |s|
  {
    if s != {} {
      var m := Least(s);
      var rest := SortedKeys(s - {m});
      SortedKeysSpec(s - {m});
      assert SortedKeys(s) == [m] + rest;
      forall i, j | 0 <= i < j < |SortedKeys(s)|
        ensures SortedKeys(s)[i] != SortedKeys(s)[j] && Below(SortedKeys(s)[i], SortedKeys(s)[j])
      {
        if i == 0 {
          assert rest[j - 1] in s - {m};
        } else {
          assert SortedKeys(s)[i] == rest[i - 1] && SortedKeys(s)[j] == rest[j - 1];
        }
      }
    }
  }

  /** Only the members of the set are listed (the membership half of SortedKeysSpec). */
  lemma SortedKeysMembers(s: set<string>)
    ensures forall x :: x in SortedKeys(s) ==> x in s
  {
    SortedKeysSpec(s);
  }

  /** SortedKeysSpec without the order: the set's members, each listed once. */
  lemma SortedKeysDistinct(s: set<string>)
    ensures forall x :: x in s <==> x in SortedKeys(s)
    ensures forall i, j :: 0 <= i < j < |SortedKeys(s)| ==> SortedKeys(s)[i] != SortedKeys(s)[j]
  {
    SortedKeysSpec(s);
  }

  lemma SortedKeysSingleton(k: string)
    ensures SortedKeys({k}) == [k]
  {
    assert Least({k}) == k;
    assert {k} - {k} == {};
  }

  /** A map's entries in the iteration order the model fixes. */
  function Entries<V>(m: map<string, V>): (r: seq<(string, V)>)
    ensures |r| == |m|
  {
    SortedKeysMembers(m.Keys);
    EntriesOf(m, SortedKeys(m.Keys))
  }

  /** A map with one entry has that one entry. */
  lemma EntriesSingleton<V>(k: string, v: V)
    ensures Entries(map[k := v]) == [(k, v)]
  {
    SortedKeysSingleton(k);
    assert map[k := v].Keys == {k};
  }

  /** Entries lists every entry of the map exactly once. */
  lemma EntriesComplete<V>(m: map<string, V>)
    ensures |Entries(m)| == |m|
    ensures forall i :: 0 <= i < |Entries(m)| ==> Entries(m)[i].0 in m && Entries(m)[i].1 == m[Entries(m)[i].0]
    ensures forall k :: k in m ==> exists i :: 0 <= i < |Entries(m)| && Entries(m)[i].0 == k
    ensures forall i, j :: 0 <= i < j < |Entries(m)| ==> Entries(m)[i].0 != Entries(m)[j].0
  {
    var ks := SortedKeys(m.Keys);
    SortedKeysDistinct(m.Keys);
    forall k | k in m ensures exists i :: 0 <= i < |Entries(m)| && Entries(m)[i].0 == k {
      var i :| 0 <= i < |ks| && ks[i] == k;
      assert Entries(m)[i].0 == k;
    }
  }

  function EntriesOf<V>(m: map<string, V>, ks: seq<string>): (r: seq<(string, V)>)
    requires forall k :: k in ks ==> k in m
    ensures |r| == |ks|
    ensures forall i :: 0 <= i < |r| ==> r[i] == (ks[i], m[ks[i]])
  {
    if ks == [] then [] else [(ks[0], m[ks[0]])] + EntriesOf(m, ks[1..])
  }
}
