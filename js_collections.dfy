/** JavaScript `Set` and `Map` as insertion-ordered sequences.

    A `Set` is the sequence of its elements in insertion order; `add` of an
    element already present changes nothing. A `Map` is the sequence of its
    entries in insertion order; `set` of a present key replaces the value in
    place, of a new key appends an entry. */
module JsCollections {

  /** Concatenation regroups freely; the solver does not see this on its own
      for long chains. */
  lemma AppendAssoc<T>(x: seq<T>, y: seq<T>, z: seq<T>)
    ensures x + (y + z) == (x + y) + z
  {
  }

  predicate NoDuplicates<T(==)>(s: seq<T>) {
    forall i, j :: 0 <= i < j < |s| ==> s[i] != s[j]
  }

  /** `Set.prototype.add`. */
  function SetAdd<T(==,!new)>(s: seq<T>, x: T): (r: seq<T>)
    ensures x in r
    ensures forall y :: y in r <==> y in s || y == x
    ensures NoDuplicates(s) ==> NoDuplicates(r)
    ensures x in s ==> r == s
    ensures x !in s ==> r == s + [x]
  {
    if x in s then s else s + [x]
  }

  /** Adding the elements of `xs` one after another, from the first. */
  function SetAddAll<T(==,!new)>(s: seq<T>, xs: seq<T>): seq<T>
    decreases |xs|
  {
    if xs == [] then s else SetAddAll(SetAdd(s, xs[0]), xs[1..])
  }

  /** The set after adding `xs` keeps its old contents as a prefix (it only
      grows) and holds exactly the old elements and those of `xs`. */
  lemma {:induction false} SetAddAllContents<T(!new)>(s: seq<T>, xs: seq<T>)
    ensures |SetAddAll(s, xs)| >= |s| && SetAddAll(s, xs)[..|s|] == s
    ensures forall y :: y in SetAddAll(s, xs) <==> y in s || y in xs
    ensures NoDuplicates(s) ==> NoDuplicates(SetAddAll(s, xs))
    decreases |xs|
  {
    if xs != [] {
      SetAddAllContents(SetAdd(s, xs[0]), xs[1..]);
      var r := SetAddAll(SetAdd(s, xs[0]), xs[1..]);
      assert SetAdd(s, xs[0])[..|s|] == s;
      assert r[..|s|] == r[..|SetAdd(s, xs[0])|][..|s|];
      forall y ensures y in r <==> y in s || y in xs {
        assert y in xs <==> y == xs[0] || y in xs[1..] by {
          assert xs == [xs[0]] + xs[1..];
        }
      }
    }
  }

  /** Adding a sequence in two parts is adding it at once. */
  lemma {:induction false} SetAddAllAppend<T(!new)>(s: seq<T>, xs: seq<T>, ys: seq<T>)
    ensures SetAddAll(s, xs + ys) == SetAddAll(SetAddAll(s, xs), ys)
    decreases |xs|
  {
    if xs != [] {
      assert (xs + ys)[1..] == xs[1..] + ys;
      SetAddAllAppend(SetAdd(s, xs[0]), xs[1..], ys);
    } else {
      assert xs + ys == ys;
    }
  }

  /** The keys of map entries, in order. */
  function Keys<K, V>(m: seq<(K, V)>): (r: seq<K>)
    ensures |r| == |m| && forall i :: 0 <= i < |m| ==> r[i] == m[i].0
  {
    seq(|m|, i requires 0 <= i < |m| => m[i].0)
  }

  /** `Map.prototype.set` on a map (whose keys are distinct). */
  function MapSet<K(==), V>(m: seq<(K, V)>, k: K, v: V): (r: seq<(K, V)>)
    requires NoDuplicates(Keys(m))
    ensures NoDuplicates(Keys(r))
    ensures k in Keys(m) ==> |r| == |m| && forall i :: 0 <= i < |m| ==> r[i] == if m[i].0 == k then (k, v) else m[i]
    ensures k !in Keys(m) ==> r == m + [(k, v)]
    decreases |m|
  {
    if m == [] then [(k, v)]
    else if m[0].0 == k then [(k, v)] + m[1..]
    else
      assert Keys(m[1..]) == Keys(m)[1..];
      [m[0]] + MapSet(m[1..], k, v)
  }

  /** Setting the entries of `es` one after another, from the first. */
  function MapSetAll<K(==), V>(m: seq<(K, V)>, es: seq<(K, V)>): (r: seq<(K, V)>)
    requires NoDuplicates(Keys(m))
    ensures NoDuplicates(Keys(r))
    decreases |es|
  {
    if es == [] then m else MapSetAll(MapSet(m, es[0].0, es[0].1), es[1..])
  }

  /** Adding elements none of which is present, and which are distinct,
      appends them all in order. */
  lemma {:induction false} SetAddAllFresh<T(!new)>(s: seq<T>, xs: seq<T>)
    requires NoDuplicates(s + xs)
    ensures SetAddAll(s, xs) == s + xs
    decreases |xs|
  {
    if xs != [] {
      assert xs[0] !in s by {
        forall i | 0 <= i < |s| ensures s[i] != xs[0] {
          assert (s + xs)[i] == s[i] && (s + xs)[|s|] == xs[0];
        }
      }
      assert s + xs == (s + [xs[0]]) + xs[1..];
      SetAddAllFresh(s + [xs[0]], xs[1..]);
    }
  }
}
