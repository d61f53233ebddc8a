/**
 * `array.sort((a, b) => key(b) - key(a))` on a JavaScript array: the engine's
 * sort is stable (ECMAScript 2019 onwards), so elements come out by descending
 * key and elements with equal keys keep their relative input order.  Modelled
 * as a stable insertion sort.
 */
module StableSort {

  /** Places `x` before the first element whose key is not greater than `key(x)`. */
  function Insert<T>(x: T, t: seq<T>, key: T -> int): (r: seq<T>)
    ensures |r| == |t| + 1
    ensures multiset(r) == multiset(t) + multiset{x}
  {
    if t == [] || key(x) >= key(t[0]) then [x] + t
    else
      assert t == [t[0]] + t[1..];
      [t[0]] + Insert(x, t[1..], key)
  }

  /** The input sorted by descending key; ties keep their input order. */
  function SortDescending<T>(s: seq<T>, key: T -> int): (r: seq<T>)
    ensures |r| == |s|
    ensures multiset(r) == multiset(s)
  {
    if s == [] then []
    else
      assert s == [s[0]] + s[1..];
      Insert(s[0], SortDescending(s[1..], key), key)
  }

  /** Keys never increase along `s`. */
  ghost predicate Descending<T>(s: seq<T>, key: T -> int) {
    forall i, j :: 0 <= i < j < |s| ==> key(s[i]) >= key(s[j])
  }

  /** Ranks strictly increase along `s` (the order the input was listed in). */
  ghost predicate Increasing<T>(s: seq<T>, rank: T -> int) {
    forall i, j :: 0 <= i < j < |s| ==> rank(s[i]) < rank(s[j])
  }

  /** Descending by key, and among equal keys ascending by rank. */
  ghost predicate StablyDescending<T>(s: seq<T>, key: T -> int, rank: T -> int) {
    forall i, j :: 0 <= i < j < |s| ==>
      key(s[i]) > key(s[j]) || (key(s[i]) == key(s[j]) && rank(s[i]) < rank(s[j]))
  }

  /** The sum of `f` over `s`. */
  function Sum<T>(s: seq<T>, f: T -> int): int {
    if s == [] then 0 else f(s[0]) + Sum(s[1..], f)
  }

  /** Inserting an element ranked before every element of a stably sorted sequence keeps it stably sorted. */
  lemma {:induction false} InsertStable<T>(x: T, t: seq<T>, key: T -> int, rank: T -> int)
    requires StablyDescending(t, key, rank)
    requires forall j :: 0 <= j < |t| ==> rank(x) < rank(t[j])
    ensures StablyDescending(Insert(x, t, key), key, rank)
  {
    if t == [] || key(x) >= key(t[0]) {
      forall j | 0 <= j < |t| ensures Precedes(x, t[j], key, rank) {
        if j > 0 {
          assert key(t[0]) >= key(t[j]);
        }
      }
      ConsStable(x, t, key, rank);
    } else {
      var rest := Insert(x, t[1..], key);
      InsertStable(x, t[1..], key, rank);
      forall j | 0 <= j < |rest| ensures Precedes(t[0], rest[j], key, rank) {
        InsertSource(x, t[1..], key, j);
        if rest[j] != x {
          var k :| 0 <= k < |t| - 1 && t[1..][k] == rest[j];
          assert t[k + 1] == rest[j];
        }
      }
      ConsStable(t[0], rest, key, rank);
    }
  }

  /** `a` may stand before `b`: a greater key, or an equal key and a smaller rank. */
  ghost predicate Precedes<T>(a: T, b: T, key: T -> int, rank: T -> int) {
    key(a) > key(b) || (key(a) == key(b) && rank(a) < rank(b))
  }

  /** Putting in front an element that may precede every element keeps a sequence stably sorted. */
  lemma ConsStable<T>(y: T, s: seq<T>, key: T -> int, rank: T -> int)
    requires StablyDescending(s, key, rank)
    requires forall j :: 0 <= j < |s| ==> Precedes(y, s[j], key, rank)
    ensures StablyDescending([y] + s, key, rank)
  {
    var r := [y] + s;
    forall i, j | 0 <= i < j < |r|
      ensures key(r[i]) > key(r[j]) || (key(r[i]) == key(r[j]) && rank(r[i]) < rank(r[j]))
    {
      if i == 0 {
        assert Precedes(y, s[j - 1], key, rank);
      } else {
        assert r[i] == s[i - 1] && r[j] == s[j - 1];
      }
    }
  }

  /** Every element of `Insert(x, t, key)` is `x` or an element of `t`. */
  lemma InsertSource<T>(x: T, t: seq<T>, key: T -> int, j: nat)
    requires j <= |t|
    ensures Insert(x, t, key)[j] == x || exists k :: 0 <= k < |t| && t[k] == Insert(x, t, key)[j]
  {
    var y := Insert(x, t, key)[j];
    assert y in multiset(Insert(x, t, key));
    if y != x {
      assert y in multiset(t);
    }
  }

  /**
   * Sorting an input listed in increasing rank yields keys in descending
   * order with ties in input order: the sort is stable.
   */
  lemma {:induction false} SortStable<T>(s: seq<T>, key: T -> int, rank: T -> int)
    requires Increasing(s, rank)
    ensures StablyDescending(SortDescending(s, key), key, rank)
  {
    if s != [] {
      var t := SortDescending(s[1..], key);
      SortStable(s[1..], key, rank);
      forall j | 0 <= j < |t| ensures rank(s[0]) < rank(t[j]) {
        assert t[j] in multiset(s[1..]);
        var k :| 0 <= k < |s[1..]| && s[1..][k] == t[j];
        assert s[k + 1] == t[j];
      }
      InsertStable(s[0], t, key, rank);
    }
  }

  lemma StablyDescendingIsDescending<T>(s: seq<T>, key: T -> int, rank: T -> int)
    requires StablyDescending(s, key, rank)
    ensures Descending(s, key)
  {
  }

  /** A sum of zeros is zero. */
  lemma {:induction false} SumZero<T>(s: seq<T>, f: T -> int)
    requires forall i :: 0 <= i < |s| ==> f(s[i]) == 0
    ensures Sum(s, f) == 0
  {
    if s != [] {
      SumZero(s[1..], f);
    }
  }

  /** Replacing one element changes the sum by the difference of the two values. */
  lemma {:induction false} SumUpdate<T>(s: seq<T>, i: nat, x: T, f: T -> int)
    requires i < |s|
    ensures Sum(s[i := x], f) == Sum(s, f) - f(s[i]) + f(x)
  {
    if i > 0 {
      SumUpdate(s[1..], i - 1, x, f);
      assert s[i := x][1..] == s[1..][i - 1 := x];
    }
  }

  lemma {:induction false} InsertSum<T>(x: T, t: seq<T>, key: T -> int, f: T -> int)
    ensures Sum(Insert(x, t, key), f) == f(x) + Sum(t, f)
  {
    if t != [] && key(x) < key(t[0]) {
      InsertSum(x, t[1..], key, f);
      assert Insert(x, t, key)[1..] == Insert(x, t[1..], key);
    }
  }

  /** Sorting does not change the sum of any quantity over the elements. */
  lemma {:induction false} SortSum<T>(s: seq<T>, key: T -> int, f: T -> int)
    ensures Sum(SortDescending(s, key), f) == Sum(s, f)
  {
    if s != [] {
      SortSum(s[1..], key, f);
      InsertSum(s[0], SortDescending(s[1..], key), key, f);
    }
  }
}
