/** The two JavaScript collection operations the stores read through:
    `Array.prototype.filter`, which keeps the elements that pass a callback in their
    original order, and `Object.values` over a string-keyed record, which lists the
    values in key-insertion order (every key here is a generated id, never an
    array-index-like string, which JavaScript would list first). */
module Collections {

  /** `s.filter(p)`. */
  function Filter<T(!new)>(p: T -> bool, s: seq<T>): (r: seq<T>)
    ensures |r| <= |s|
    ensures forall x :: x in r <==> x in s && p(x)
    ensures forall i :: 0 <= i < |r| ==> p(r[i])
  {
    if s == [] then []
    else (if p(s[0]) then [s[0]] else []) + Filter(p, s[1..])
  }

  /** Filtering a concatenation filters each part, keeping their order. Together with
      the one-element case this pins the result down as the order-preserving
      subsequence of the passing elements. */
  lemma {:induction false} FilterAppend<T(!new)>(p: T -> bool, a: seq<T>, b: seq<T>)
    ensures Filter(p, a + b) == Filter(p, a) + Filter(p, b)
  {
    if a == [] {
      assert a + b == b;
    } else {
      assert (a + b)[0] == a[0];
      assert (a + b)[1..] == a[1..] + b;
      FilterAppend(p, a[1..], b);
    }
  }

  /** When every element passes, the filter returns its input unchanged. */
  lemma {:induction false} FilterAllPass<T(!new)>(p: T -> bool, s: seq<T>)
    requires forall i :: 0 <= i < |s| ==> p(s[i])
    ensures Filter(p, s) == s
  {
    if s != [] {
      FilterAllPass(p, s[1..]);
    }
  }

  /** Two callbacks that agree on every element give the same result. */
  lemma {:induction false} FilterCongruent<T(!new)>(p: T -> bool, q: T -> bool, s: seq<T>)
    requires forall i :: 0 <= i < |s| ==> p(s[i]) == q(s[i])
    ensures Filter(p, s) == Filter(q, s)
  {
    if s != [] {
      FilterCongruent(p, q, s[1..]);
    }
  }

  /** Replacing one element changes the result only at that element's place. */
  lemma {:induction false} FilterReplace<T(!new)>(p: T -> bool, s: seq<T>, i: nat, x: T)
    requires i < |s|
    ensures Filter(p, s[i := x]) ==
      Filter(p, s[..i]) + (if p(x) then [x] else []) + Filter(p, s[i + 1..])
  {
    var a, b := s[..i], s[i + 1..];
    var t := a + [x];
    assert s[i := x] == t + b;
    FilterAppend(p, t, b);
    FilterAppend(p, a, [x]);
    FilterOne(p, x);
  }

  /** A one-element array keeps its element exactly when it passes. */
  lemma FilterOne<T(!new)>(p: T -> bool, x: T)
    ensures Filter(p, [x]) == if p(x) then [x] else []
  {
  }

  /** `ids` lists the keys of `m` once each, in insertion order. */
  ghost predicate KeyOrder<V>(m: map<string, V>, ids: seq<string>) {
    && (forall i :: 0 <= i < |ids| ==> ids[i] in m)
    && (forall k :: k in m ==> k in ids)
    && (forall i, j :: 0 <= i < j < |ids| ==> ids[i] != ids[j])
  }

  /** `Object.values(m)`, given the insertion order of its keys. */
  function ValuesInOrder<V>(m: map<string, V>, ids: seq<string>): (r: seq<V>)
    requires forall i :: 0 <= i < |ids| ==> ids[i] in m
    ensures |r| == |ids|
  {
    seq(|ids|, i requires 0 <= i < |ids| => m[ids[i]])
  }

  /** Every stored value is listed, and nothing else is. */
  lemma ValuesAreStored<V>(m: map<string, V>, ids: seq<string>)
    requires KeyOrder(m, ids)
    ensures forall k :: k in m ==> m[k] in ValuesInOrder(m, ids)
    ensures forall v :: v in ValuesInOrder(m, ids) ==> exists k :: k in m && m[k] == v
  {
    var vs := ValuesInOrder(m, ids);
    forall k | k in m ensures m[k] in vs {
      var i :| 0 <= i < |ids| && ids[i] == k;
      assert vs[i] == m[k];
    }
    forall v | v in vs ensures exists k :: k in m && m[k] == v {
      var i :| 0 <= i < |vs| && vs[i] == v;
      assert ids[i] in m && m[ids[i]] == v;
    }
  }

  /** Storing under a fresh key appends its value at the end of `Object.values`. */
  lemma ValuesAfterInsert<V>(m: map<string, V>, ids: seq<string>, k: string, v: V)
    requires KeyOrder(m, ids) && k !in m
    ensures KeyOrder(m[k := v], ids + [k])
    ensures ValuesInOrder(m[k := v], ids + [k]) == ValuesInOrder(m, ids) + [v]
  {
  }

  /** Overwriting the value of a stored key keeps its position in `Object.values`. */
  lemma ValuesAfterOverwrite<V>(m: map<string, V>, ids: seq<string>, i: nat, v: V)
    requires KeyOrder(m, ids) && i < |ids|
    ensures KeyOrder(m[ids[i] := v], ids)
    ensures ValuesInOrder(m[ids[i] := v], ids) == ValuesInOrder(m, ids)[i := v]
  {
  }
}
