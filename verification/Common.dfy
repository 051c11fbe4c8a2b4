/** Small facts shared by the component models: options, weighted sums over sequences and maps. */
module Common {

  newtype byte = x: int | 0 <= x < 256

  datatype Option<+T> = None | Some(value: T)

  /** The total weight of a sequence, one weight per element. */
  ghost function SumBy<T(!new)>(w: T -> nat, s: seq<T>): nat {
    if s == [] then 0 else SumBy(w, s[..|s| - 1]) + w(s[|s| - 1])
  }

  lemma {:induction false} SumByUpdate<T(!new)>(w: T -> nat, s: seq<T>, i: nat, x: T)
    requires i < |s|
    ensures SumBy(w, s[i := x]) == SumBy(w, s) - w(s[i]) + w(x)
    ensures SumBy(w, s) >= w(s[i])
  {
    var n := |s| - 1;
    if i == n {
      assert s[i := x][..n] == s[..n];
    } else {
      SumByUpdate(w, s[..n], i, x);
      assert s[i := x][..n] == s[..n][i := x];
    }
  }

  lemma SumByAppend<T(!new)>(w: T -> nat, s: seq<T>, x: T)
    ensures SumBy(w, s + [x]) == SumBy(w, s) + w(x)
  {
    assert (s + [x])[..|s|] == s;
  }

  lemma {:induction false} SumByConcat<T(!new)>(w: T -> nat, s: seq<T>, t: seq<T>)
    ensures SumBy(w, s + t) == SumBy(w, s) + SumBy(w, t)
  {
    if t == [] {
      assert s + t == s;
    } else {
      var n := |t| - 1;
      SumByConcat(w, s, t[..n]);
      assert (s + t)[..|s + t| - 1] == s + t[..n];
    }
  }

  lemma SumByHead<T(!new)>(w: T -> nat, s: seq<T>)
    requires s != []
    ensures SumBy(w, s) == w(s[0]) + SumBy(w, s[1..])
  {
    SumByConcat(w, [s[0]], s[1..]);
    assert s == [s[0]] + s[1..];
    SumByAppend(w, [], s[0]);
    assert [] + [s[0]] == [s[0]];
  }

  lemma SumByRemove<T(!new)>(w: T -> nat, s: seq<T>, i: nat)
    requires i < |s|
    ensures SumBy(w, s) == SumBy(w, s[..i] + s[i + 1..]) + w(s[i])
  {
    SumByConcat(w, s[..i], s[i..]);
    assert s == s[..i] + s[i..];
    SumByHead(w, s[i..]);
    assert s[i..][1..] == s[i + 1..];
    SumByConcat(w, s[..i], s[i + 1..]);
  }

  /** When no weight exceeds one, the sum is at most the length, with equality iff all are one. */
  lemma {:induction false} SumByFull<T(!new)>(w: T -> nat, s: seq<T>)
    requires forall x :: w(x) <= 1
    ensures SumBy(w, s) <= |s|
    ensures SumBy(w, s) == |s| <==> forall i :: 0 <= i < |s| ==> w(s[i]) == 1
  {
    if s != [] {
      SumByFull(w, s[..|s| - 1]);
      assert forall i :: 0 <= i < |s| - 1 ==> s[..|s| - 1][i] == s[i];
    }
  }

  lemma {:induction false} SumByShort<T(!new)>(w: T -> nat, s: seq<T>) returns (i: nat)
    requires SumBy(w, s) < |s|
    ensures i < |s| && w(s[i]) == 0
  {
    i := |s| - 1;
    if w(s[i]) != 0 {
      i := SumByShort(w, s[..i]);
    }
  }

  lemma {:induction false} SumByZero<T(!new)>(w: T -> nat, s: seq<T>)
    ensures SumBy(w, s) == 0 <==> forall i :: 0 <= i < |s| ==> w(s[i]) == 0
  {
    if s != [] {
      SumByZero(w, s[..|s| - 1]);
      assert forall i :: 0 <= i < |s| - 1 ==> s[..|s| - 1][i] == s[i];
    }
  }

  lemma ConcatAssociates<T>(a: seq<T>, b: seq<T>, c: seq<T>)
    ensures a + (b + c) == a + b + c
  {
  }

  lemma ConcatLast<T>(a: seq<T>, k: seq<T>)
    requires k != []
    ensures a + k == (a + k[..|k| - 1]) + [k[|k| - 1]]
  {
  }

  lemma SliceOfSlice<T>(s: seq<T>, a: nat, b: nat, c: nat, d: nat)
    requires a <= b <= |s| && c <= d <= b - a
    ensures s[a..b][c..d] == s[a + c..a + d]
  {
    forall i | 0 <= i < d - c ensures s[a..b][c..d][i] == s[a + c..a + d][i] {
      assert s[a..b][c + i] == s[a + c + i];
    }
  }

  /** The total weight of the values of a map. */
  ghost function SumMap<K(!new), V(!new)>(w: V -> nat, m: map<K, V>): nat {
    if m == map[] then 0 else
      var k :| k in m;
      w(m[k]) + SumMap(w, m - {k})
  }

  lemma {:induction false} SumMapRemove<K(!new), V(!new)>(w: V -> nat, m: map<K, V>, k: K)
    requires k in m
    ensures SumMap(w, m) == w(m[k]) + SumMap(w, m - {k})
    decreases |m|
  {
    var j :| j in m && SumMap(w, m) == w(m[j]) + SumMap(w, m - {j});
    if j != k {
      SumMapRemove(w, m - {j}, k);
      SumMapRemove(w, m - {k}, j);
      assert m - {j} - {k} == m - {k} - {j};
    }
  }

  lemma SumMapUpdate<K(!new), V(!new)>(w: V -> nat, m: map<K, V>, k: K, v: V)
    ensures SumMap(w, m[k := v]) == SumMap(w, m - {k}) + w(v)
    ensures SumMap(w, m) == SumMap(w, m - {k}) + if k in m then w(m[k]) else 0
  {
    SumMapRemove(w, m[k := v], k);
    assert m[k := v] - {k} == m - {k};
    if k in m { SumMapRemove(w, m, k); } else { assert m - {k} == m; }
  }

  lemma Member<T>(s: set<T>) returns (x: T)
    requires s != {}
    ensures x in s
  {
    x :| x in s;
  }

  lemma MapGrows<K, V>(m: map<K, V>, k: K, v: V)
    requires k !in m
    ensures |m[k := v]| == |m| + 1
  {
    assert m[k := v].Keys == m.Keys + {k};
  }

  lemma DisjointSize<K, U, V>(a: map<K, U>, b: map<K, V>)
    requires a.Keys !! b.Keys
    ensures |a.Keys + b.Keys| == |a| + |b|
  {
    assert |a.Keys| == |a| && |b.Keys| == |b|;
  }

  lemma MapShrinks<K, V>(m: map<K, V>, k: K)
    requires k in m
    ensures |m - {k}| == |m| - 1
  {
    assert (m - {k}).Keys == m.Keys - {k};
  }
}
