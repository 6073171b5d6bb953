/**
 * `DataHelpers` of the application (shuffle, random, randomChoice,
 * randomChoices, groupBy), and the general facts about sequences and maps
 * that the components' proofs share.
 *
 * `Math.random()` is an oracle: every draw is a nondeterministic choice, so
 * each postcondition holds for every sequence of draws.
 */
module Helpers {
  import opened Wrappers

  // ---------------------------------------------------------------------------
  // Distinct sequences

  /** No value occurs twice. */
  predicate Distinct<T(==)>(s: seq<T>) {
    forall i, j :: 0 <= i < j < |s| ==> s[i] != s[j]
  }

  /** A sequence is duplicate-free exactly when each value occurs at most once in its multiset. */
  lemma {:induction false} DistinctIffSingleOccurrences<T>(s: seq<T>)
    ensures Distinct(s) <==> forall x :: multiset(s)[x] <= 1
  {
    if s != [] {
      var t := s[1..];
      DistinctIffSingleOccurrences(t);
      assert s == [s[0]] + t;
      assert multiset(s) == multiset{s[0]} + multiset(t);
      if Distinct(s) {
        assert Distinct(t) by {
          forall i, j | 0 <= i < j < |t| ensures t[i] != t[j] {
            assert t[i] == s[i + 1] && t[j] == s[j + 1];
          }
        }
        assert s[0] !in t;
      } else {
        var i, j :| 0 <= i < j < |s| && s[i] == s[j];
        if i == 0 {
          assert t[j - 1] == s[0];
          assert multiset(s)[s[0]] >= 2;
        } else {
          assert t[i - 1] == t[j - 1];
          assert !Distinct(t);
          var x :| multiset(t)[x] > 1;
          assert multiset(s)[x] > 1;
        }
      }
    }
  }

  /** Permuting a duplicate-free sequence leaves it duplicate-free. */
  lemma PermutationKeepsDistinct<T>(s: seq<T>, t: seq<T>)
    requires multiset(s) == multiset(t)
    requires Distinct(s)
    ensures Distinct(t)
  {
    DistinctIffSingleOccurrences(s);
    DistinctIffSingleOccurrences(t);
  }

  /** Sequences with the same multiset have the same elements. */
  lemma SameMultisetSameElements<T>(a: seq<T>, b: seq<T>)
    requires multiset(a) == multiset(b)
    ensures forall e :: e in a <==> e in b
  {
    forall e ensures e in a <==> e in b {
      assert e in a <==> multiset(a)[e] > 0;
      assert e in b <==> multiset(b)[e] > 0;
    }
  }

  /** The set of values `f` takes on a sequence has at most as many elements as the sequence. */
  lemma {:induction false} ImageAtMostLength<T, U>(s: seq<T>, f: T -> U, image: set<U>)
    requires forall y :: y in image <==> exists i :: 0 <= i < |s| && f(s[i]) == y
    ensures |image| <= |s|
  {
    if s == [] {
      assert image == {};
    } else {
      var t := s[..|s| - 1];
      var smaller := set i | 0 <= i < |t| :: f(t[i]);
      ImageAtMostLength(t, f, smaller);
      assert image <= smaller + {f(s[|s| - 1])} by {
        forall y | y in image ensures y in smaller + {f(s[|s| - 1])} {
          var i :| 0 <= i < |s| && f(s[i]) == y;
          if i < |t| {
            assert f(t[i]) == y;
          }
        }
      }
      SubsetCardinality(image, smaller + {f(s[|s| - 1])});
    }
  }

  lemma {:induction false} SubsetCardinality<U>(a: set<U>, b: set<U>)
    requires a <= b
    ensures |a| <= |b|
  {
    if a != {} {
      var x :| x in a;
      SubsetCardinality(a - {x}, b - {x});
    }
  }

  /** `Array.prototype.indexOf`: the first position of `x`, or -1. */
  function IndexOf<T(==)>(s: seq<T>, x: T): (i: int)
    ensures i == -1 <==> x !in s
    ensures i != -1 ==> 0 <= i < |s| && s[i] == x && x !in s[..i]
  {
    if s == [] then -1
    else if s[0] == x then 0
    else
      var j := IndexOf(s[1..], x);
      if j == -1 then -1
      else
        assert s[..j + 1] == [s[0]] + s[1..][..j];
        j + 1
  }

  /** `idx` lists, in increasing order, positions of `data` holding the elements of `r`. */
  ghost predicate EmbedsAt<T>(r: seq<T>, data: seq<T>, idx: seq<int>) {
    && |idx| == |r|
    && (forall k :: 0 <= k < |idx| ==> 0 <= idx[k] < |data| && r[k] == data[idx[k]])
    && (forall k, l :: 0 <= k < l < |idx| ==> idx[k] < idx[l])
  }

  /** `r` is an order-preserving subsequence of `data`. */
  ghost predicate IsSubsequence<T>(r: seq<T>, data: seq<T>) {
    exists idx :: EmbedsAt(r, data, idx)
  }

  // ---------------------------------------------------------------------------
  // Random draws

  /**
   * `Math.floor(Math.random() * width)`: a draw in [0, width) for a positive
   * width, 0 for width 0, and in [width, 0] for a negative width.
   */
  method RandomOffset(width: int) returns (k: int)
    ensures width > 0 ==> 0 <= k < width
    ensures width <= 0 ==> width <= k <= 0
  {
    if width > 0 {
      k :| 0 <= k < width;
    } else {
      k :| width <= k <= 0;
    }
  }

  /** `random(min, max)`: an integer between `min` and `max` inclusive (reversed bounds give (max, min]). */
  method Random(min: int, max: int) returns (r: int)
    ensures min <= max ==> min <= r <= max
    ensures max < min ==> max < r <= min
  {
    var offset := RandomOffset(max - min + 1);
    r := offset + min;
  }

  /** `randomChoice(array)`: an element of a non-empty array; `undefined` (None) for an empty one. */
  method RandomChoice<T>(s: seq<T>) returns (r: Option<T>)
    ensures r.None? <==> |s| == 0
    ensures r.Some? ==> r.value in s
  {
    var k := RandomOffset(|s|);
    if 0 <= k < |s| {
      r := Some(s[k]);
    } else {
      r := None;
    }
  }

  /** The in-place swap loop of `shuffle` (Fisher–Yates, descending `i`, `j` drawn in [0, i]). */
  method FisherYates<T>(a: array<T>)
    modifies a
    ensures multiset(a[..]) == multiset(old(a[..]))
  {
    var i := a.Length - 1;
    while i > 0
      invariant i < a.Length
      invariant multiset(a[..]) == multiset(old(a[..]))
    {
      var j := RandomOffset(i + 1);
      a[i], a[j] := a[j], a[i];
      i := i - 1;
    }
  }

  /**
   * `shuffle(array)`: a permutation of the input. The input is copied first
   * (`[...array]`), so the caller's array is never changed.
   */
  method Shuffle<T>(s: seq<T>) returns (r: seq<T>)
    ensures |r| == |s|
    ensures multiset(r) == multiset(s)
  {
    var a := new T[|s|](i requires 0 <= i < |s| => s[i]);
    assert a[..] == s;
    FisherYates(a);
    r := a[..];
  }

  /** The end index `slice(0, end)` stops at: a negative end counts back from the length. */
  function SliceEnd(length: nat, end: int): (e: nat)
    ensures e <= length
    ensures end >= 0 ==> e == if end < length then end else length
    ensures end < 0 ==> e == if length + end > 0 then length + end else 0
  {
    if end >= 0 then (if end < length then end else length)
    else if length + end > 0 then length + end else 0
  }

  /**
   * `randomChoices(array, count)`: the first `count` elements of a shuffled
   * copy, so elements taken from distinct positions of the input.
   */
  method RandomChoices<T>(s: seq<T>, count: int) returns (r: seq<T>)
    ensures |r| == SliceEnd(|s|, count)
    ensures count >= 0 ==> |r| == if count < |s| then count else |s|
    ensures multiset(r) <= multiset(s)
  {
    var shuffled := Shuffle(s);
    var e := SliceEnd(|shuffled|, count);
    r := shuffled[..e];
    assert shuffled == r + shuffled[e..];
    assert multiset(shuffled) == multiset(r) + multiset(shuffled[e..]);
  }

  // ---------------------------------------------------------------------------
  // groupBy

  /** `item[key] || 'undefined'`: the group of an item whose key text is `k` ("" when falsy). */
  function GroupName(k: string): (g: string)
    ensures g != ""
    ensures k != "" ==> g == k
  {
    if k == "" then "undefined" else k
  }

  /** The items of `s` whose group is `g`, in input order. */
  function ItemsInGroup<T>(s: seq<T>, key: T -> string, g: string): seq<T>
  {
    if s == [] then []
    else ItemsInGroup(s[..|s| - 1], key, g) + (if GroupName(key(s[|s| - 1])) == g then [s[|s| - 1]] else [])
  }

  /**
   * `groupBy(array, key)`. `key` gives the text of each item's key property,
   * "" for every falsy value; such items land in the group 'undefined'.
   * Each group lists exactly the items with that group name, in input order.
   */
  method GroupBy<T>(s: seq<T>, key: T -> string) returns (groups: map<string, seq<T>>)
    ensures forall g :: g in groups <==> exists i :: 0 <= i < |s| && GroupName(key(s[i])) == g
    ensures forall g :: g in groups ==> groups[g] == ItemsInGroup(s, key, g)
  {
    groups := map[];
    var i := 0;
    while i < |s|
      invariant 0 <= i <= |s|
      invariant GroupsOfPrefix(groups, s, key, i)
    {
      GroupByStep(groups, s, key, i);
      var g := GroupName(key(s[i]));
      var items := if g in groups then groups[g] else [];
      groups := groups[g := items + [s[i]]];
      i := i + 1;
    }
    assert s[..i] == s;
  }

  /** The loop state of `GroupBy` after the first `i` items. */
  ghost predicate GroupsOfPrefix<T>(groups: map<string, seq<T>>, s: seq<T>, key: T -> string, i: nat)
    requires i <= |s|
  {
    && (forall g :: g in groups <==> exists j :: 0 <= j < i && GroupName(key(s[j])) == g)
    && (forall g :: g in groups ==> groups[g] == ItemsInGroup(s[..i], key, g))
    && (forall g :: g !in groups ==> ItemsInGroup(s[..i], key, g) == [])
  }

  /** Pushing item `i` onto its group keeps the loop state. */
  lemma GroupByStep<T>(groups: map<string, seq<T>>, s: seq<T>, key: T -> string, i: nat)
    requires i < |s| && GroupsOfPrefix(groups, s, key, i)
    ensures var g := GroupName(key(s[i]));
      GroupsOfPrefix(groups[g := (if g in groups then groups[g] else []) + [s[i]]], s, key, i + 1)
  {
    var g := GroupName(key(s[i]));
    var next := groups[g := (if g in groups then groups[g] else []) + [s[i]]];
    ItemsInGroupStep(s, key, i);
    forall h ensures h in next <==> exists j :: 0 <= j < i + 1 && GroupName(key(s[j])) == h {
      if h == g {
        assert GroupName(key(s[i])) == h;
      }
    }
    forall h | h in next ensures next[h] == ItemsInGroup(s[..i + 1], key, h) {
    }
    forall h | h !in next ensures ItemsInGroup(s[..i + 1], key, h) == [] {
    }
  }

  /** Extending the prefix by one item extends only that item's group. */
  lemma ItemsInGroupStep<T>(s: seq<T>, key: T -> string, i: nat)
    requires i < |s|
    ensures forall g ::
      ItemsInGroup(s[..i + 1], key, g) == ItemsInGroup(s[..i], key, g) + (if GroupName(key(s[i])) == g then [s[i]] else [])
  {
    assert s[..i + 1][..i] == s[..i];
  }

  /**
   * The groups partition the input: an item occurs in its own group exactly as
   * often as in the input and in no other group, so concatenating all groups
   * gives a permutation of the input.
   */
  lemma {:induction false} GroupsPartitionInput<T>(s: seq<T>, key: T -> string, g: string, x: T)
    ensures multiset(ItemsInGroup(s, key, g))[x] == if GroupName(key(x)) == g then multiset(s)[x] else 0
  {
    if s != [] {
      var init := s[..|s| - 1];
      GroupsPartitionInput(init, key, g, x);
      assert s == init + [s[|s| - 1]];
    }
  }

  // ---------------------------------------------------------------------------
  // Sums over the values of a map (JavaScript objects used as counters)

  /** The sum of `f` over the values of `m`. */
  ghost function SumMap<K, V>(m: map<K, V>, f: V -> nat): nat
    decreases |m|
  {
    if m == map[] then 0
    else
      var k :| k in m;
      assert |m - {k}| < |m| by { assert (m - {k}).Keys == m.Keys - {k}; }
      f(m[k]) + SumMap(m - {k}, f)
  }

  /** Any one key can be taken out of the sum first. */
  lemma {:induction false} SumMapRemove<K, V>(m: map<K, V>, f: V -> nat, k: K)
    requires k in m
    ensures SumMap(m, f) == f(m[k]) + SumMap(m - {k}, f)
    decreases |m|
  {
    var j :| j in m && SumMap(m, f) == f(m[j]) + SumMap(m - {j}, f);
    if j != k {
      assert (m - {j}).Keys == m.Keys - {j};
      assert (m - {k}).Keys == m.Keys - {k};
      SumMapRemove(m - {j}, f, k);
      SumMapRemove(m - {k}, f, j);
      assert m - {j} - {k} == m - {k} - {j};
    }
  }

  /** Setting one key replaces its contribution to the sum. */
  lemma SumMapUpdate<K, V>(m: map<K, V>, f: V -> nat, k: K, v: V)
    ensures SumMap(m[k := v], f) == SumMap(m - {k}, f) + f(v)
    ensures k in m ==> SumMap(m, f) == SumMap(m - {k}, f) + f(m[k])
    ensures k !in m ==> SumMap(m, f) == SumMap(m - {k}, f)
  {
    SumMapRemove(m[k := v], f, k);
    assert m[k := v] - {k} == m - {k};
    if k in m {
      SumMapRemove(m, f, k);
    } else {
      assert m - {k} == m;
    }
  }

  /** Two maps with the same keys whose values contribute the same amounts have the same sum. */
  lemma {:induction false} SumMapCongruent<K, V, W>(m: map<K, V>, f: V -> nat, n: map<K, W>, h: W -> nat)
    requires m.Keys == n.Keys
    requires forall k :: k in m ==> f(m[k]) == h(n[k])
    ensures SumMap(m, f) == SumMap(n, h)
    decreases |m|
  {
    if m != map[] {
      var k :| k in m;
      SumMapRemove(m, f, k);
      SumMapRemove(n, h, k);
      assert (m - {k}).Keys == m.Keys - {k};
      SumMapCongruent(m - {k}, f, n - {k}, h);
    } else {
      assert n == map[];
    }
  }
}
