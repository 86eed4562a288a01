/** Generic helpers shared by every module: an Option type for JavaScript's
    null/undefined, the array operations the game code relies on (filter, a
    stable sort, slicing), and the integer facts behind `(start + i) % n`. */
module Seqs {

  /** `null` / `undefined` in the JavaScript source. */
  datatype Option<+T> = None | Some(value: T)

  function Abs(x: int): nat
  {
    if x < 0 then -x else x
  }

  function MinInt(a: int, b: int): int
  {
    if a < b then a else b
  }

  function MaxInt(a: int, b: int): int
  {
    if a < b then b else a
  }

  function MinReal(a: real, b: real): real
  {
    if a < b then a else b
  }

  function MaxReal(a: real, b: real): real
  {
    if a < b then b else a
  }

  /** r occurs in s in the same relative order (r may skip elements of s). */
  predicate Subsequence<T(==)>(r: seq<T>, s: seq<T>)
  {
    if r == [] then true
    else if s == [] then false
    else if r[0] == s[0] then Subsequence(r[1..], s[1..])
    else Subsequence(r, s[1..])
  }

  /** Every sequence is a subsequence of itself. */
  lemma {:induction false} SubsequenceRefl<T>(s: seq<T>)
    ensures Subsequence(s, s)
  {
    if s != [] {
      SubsequenceRefl(s[1..]);
    }
  }

  /** A prefix (`slice(0, k)`) is a subsequence. */
  lemma {:induction false} SubsequencePrefix<T>(s: seq<T>, k: nat)
    requires k <= |s|
    ensures Subsequence(s[..k], s)
  {
    if k > 0 {
      assert s[..k][1..] == s[1..][..k - 1];
      SubsequencePrefix(s[1..], k - 1);
    }
  }

  /** Dropping the first element of a subsequence keeps it a subsequence. */
  lemma {:induction false} SubsequenceTail<T>(r: seq<T>, s: seq<T>)
    requires r != [] && Subsequence(r, s)
    ensures Subsequence(r[1..], s)
    decreases |s|, 0
  {
    if r[0] == s[0] {
      SubsequenceSkip(r[1..], s[1..], s[0]);
      assert s == [s[0]] + s[1..];
    } else {
      SubsequenceTail(r, s[1..]);
      SubsequenceSkip(r[1..], s[1..], s[0]);
      assert s == [s[0]] + s[1..];
    }
  }

  /** A subsequence of s is one of x + s too. */
  lemma SubsequenceSkip<T>(r: seq<T>, s: seq<T>, x: T)
    requires Subsequence(r, s)
    ensures Subsequence(r, [x] + s)
    decreases |s|, 1
  {
    if r != [] && r[0] == x {
      SubsequenceTail(r, s);
      assert ([x] + s)[1..] == s;
    } else {
      assert ([x] + s)[1..] == s;
    }
  }

  /** Being a subsequence is transitive. */
  lemma {:induction false} SubsequenceTrans<T>(a: seq<T>, b: seq<T>, c: seq<T>)
    requires Subsequence(a, b) && Subsequence(b, c)
    ensures Subsequence(a, c)
    decreases |c|
  {
    if a != [] {
      assert b != [] && c != [];
      if b[0] == c[0] {
        if a[0] == b[0] {
          SubsequenceTrans(a[1..], b[1..], c[1..]);
        } else {
          SubsequenceTrans(a, b[1..], c[1..]);
        }
      } else {
        SubsequenceTrans(a, b, c[1..]);
        if a[0] == c[0] {
          SubsequenceTail(a, c[1..]);
        }
      }
    }
  }

  /** Every element of a subsequence is an element of the sequence. */
  lemma {:induction false} SubsequenceIn<T>(r: seq<T>, s: seq<T>, x: T)
    requires Subsequence(r, s) && x in r
    ensures x in s
    decreases |s|
  {
    if r[0] == s[0] {
      if x != r[0] {
        SubsequenceIn(r[1..], s[1..], x);
      }
    } else {
      SubsequenceIn(r, s[1..], x);
    }
  }

  /** Moving cards between a holder and a pile, twice over, conserves the
      total: if a swap turns (a, h) into (b, h') and a draw turns (h, d)
      into (h', d'), then a with d' holds what b with d holds. */
  lemma MultisetTransfer<T>(a: multiset<T>, b: multiset<T>, h: multiset<T>, h': multiset<T>,
                            d: multiset<T>, d': multiset<T>)
    requires a + h == b + h'
    requires h' + d' == h + d
    ensures a + d' == b + d
  {
    forall x
      ensures (a + d')[x] == (b + d)[x]
    {
      assert (a + h)[x] == (b + h')[x];
      assert (h' + d')[x] == (h + d)[x];
    }
  }

  /** Adding two multisets to a third in either order gives the same. */
  lemma MultisetSwap<T>(a: multiset<T>, b: multiset<T>, c: multiset<T>)
    ensures a + b + c == a + c + b
  {
    forall x
      ensures (a + b + c)[x] == (a + c + b)[x]
    {
    }
  }

  /** `Array.prototype.filter`: the elements of s satisfying f, in order. */
  function Filter<T(==,!new)>(s: seq<T>, f: T -> bool): (r: seq<T>)
    ensures |r| <= |s|
    ensures forall x :: x in r <==> x in s && f(x)
  {
    if s == [] then []
    else
      var rest := Filter(s[1..], f);
      assert s == [s[0]] + s[1..];
      if f(s[0]) then [s[0]] + rest else rest
  }

  /** Filtering keeps every copy of a passing element and none of the others. */
  lemma {:induction false} FilterMultiset<T(!new)>(s: seq<T>, f: T -> bool)
    ensures forall x :: multiset(Filter(s, f))[x] == if f(x) then multiset(s)[x] else 0
  {
    if s != [] {
      FilterMultiset(s[1..], f);
      assert s == [s[0]] + s[1..];
      assert multiset(s) == multiset{s[0]} + multiset(s[1..]);
      if f(s[0]) {
        assert multiset([s[0]] + Filter(s[1..], f)) == multiset{s[0]} + multiset(Filter(s[1..], f));
      }
    }
  }

  /** Filtering keeps the order of what it keeps. */
  lemma {:induction false} FilterSubsequence<T(!new)>(s: seq<T>, f: T -> bool)
    ensures Subsequence(Filter(s, f), s)
  {
    if s != [] {
      FilterSubsequence(s[1..], f);
      if f(s[0]) {
        assert ([s[0]] + Filter(s[1..], f))[1..] == Filter(s[1..], f);
      }
    }
  }

  /** Filtering distributes over concatenation. */
  lemma {:induction false} FilterAppend<T(!new)>(a: seq<T>, b: seq<T>, f: T -> bool)
    ensures Filter(a + b, f) == Filter(a, f) + Filter(b, f)
  {
    if a == [] {
      assert a + b == b;
    } else {
      assert (a + b)[0] == a[0];
      assert (a + b)[1..] == a[1..] + b;
      FilterAppend(a[1..], b, f);
    }
  }

  /** Filtering one more element of s adds it when it passes the test. */
  lemma FilterSnoc<T(!new)>(s: seq<T>, i: nat, f: T -> bool)
    requires i < |s|
    ensures Filter(s[..i + 1], f) == Filter(s[..i], f) + (if f(s[i]) then [s[i]] else [])
  {
    assert s[..i + 1] == s[..i] + [s[i]];
    FilterAppend(s[..i], [s[i]], f);
    assert [s[i]][1..] == [];
  }

  /** A running count of the elements passing f, element by element from the front. */
  function CountIf<T>(s: seq<T>, f: T -> bool): nat
  {
    if s == [] then 0
    else CountIf(s[..|s| - 1], f) + (if f(s[|s| - 1]) then 1 else 0)
  }

  /** The running count is the length of the filtered sequence. */
  lemma {:induction false} CountIfFilter<T(!new)>(s: seq<T>, f: T -> bool)
    ensures CountIf(s, f) == |Filter(s, f)|
  {
    if s != [] {
      var i := |s| - 1;
      CountIfFilter(s[..i], f);
      FilterSnoc(s, i, f);
      assert s[..i + 1] == s;
    }
  }

  /** Two predicates that agree on every element of s filter s alike. */
  lemma {:induction false} FilterCongruent<T(!new)>(s: seq<T>, f: T -> bool, g: T -> bool)
    requires forall x :: x in s ==> f(x) == g(x)
    ensures Filter(s, f) == Filter(s, g)
  {
    if s != [] {
      FilterCongruent(s[1..], f, g);
    }
  }

  /** A predicate that holds of every element keeps the whole sequence. */
  lemma {:induction false} FilterAll<T(!new)>(s: seq<T>, f: T -> bool)
    requires forall x :: x in s ==> f(x)
    ensures Filter(s, f) == s
  {
    if s != [] {
      FilterAll(s[1..], f);
    }
  }

  /** The head of a filtered sequence is the first element that passes. */
  lemma {:induction false} FilterFirst<T(!new)>(s: seq<T>, f: T -> bool)
    requires Filter(s, f) != []
    ensures exists i :: 0 <= i < |s| && s[i] == Filter(s, f)[0] && f(s[i]) && forall j :: 0 <= j < i ==> !f(s[j])
  {
    if !f(s[0]) {
      FilterFirst(s[1..], f);
      var i :| 0 <= i < |s[1..]| && s[1..][i] == Filter(s[1..], f)[0] && f(s[1..][i])
               && forall j :: 0 <= j < i ==> !f(s[1..][j]);
      assert s[i + 1] == s[1..][i];
      forall j | 0 <= j < i + 1
        ensures !f(s[j])
      {
        if j > 0 { assert s[j] == s[1..][j - 1]; }
      }
    }
  }

  /** `Array.prototype.find`: the first element of s satisfying f, if any. */
  function Find<T(==,!new)>(s: seq<T>, f: T -> bool): (r: Option<T>)
    ensures r.None? <==> forall x :: x in s ==> !f(x)
    ensures r.Some? ==> r.value in s && f(r.value)
    ensures r.Some? ==> exists i :: 0 <= i < |s| && s[i] == r.value && forall j :: 0 <= j < i ==> !f(s[j])
  {
    var passing := Filter(s, f);
    if passing == [] then None
    else
      assert passing[0] in passing;
      FilterFirst(s, f);
      Some(passing[0])
  }

  /** Number of elements of s satisfying f. */
  function Count<T(==,!new)>(s: seq<T>, f: T -> bool): (n: nat)
    ensures n <= |s|
    ensures n == 0 <==> forall x :: x in s ==> !f(x)
  {
    var r := Filter(s, f);
    assert r != [] ==> r[0] in r;
    |r|
  }

  /** `slice(0, k)`. */
  function Take<T>(s: seq<T>, k: nat): (r: seq<T>)
    ensures |r| == MinInt(k, |s|)
    ensures forall i :: 0 <= i < |r| ==> r[i] == s[i]
    ensures forall x :: x in r ==> x in s
  {
    if k < |s| then s[..k] else s
  }

  ghost predicate SortedBy<T>(s: seq<T>, key: T -> real)
  {
    forall i, j :: 0 <= i < j < |s| ==> key(s[i]) <= key(s[j])
  }

  /** Insert x into s before the first element whose key is not smaller. */
  function InsertBy<T(==)>(x: T, s: seq<T>, key: T -> real): (r: seq<T>)
    ensures multiset(r) == multiset(s) + multiset{x}
    ensures |r| == |s| + 1
  {
    if s == [] || key(x) <= key(s[0]) then
      assert multiset([x] + s) == multiset{x} + multiset(s);
      [x] + s
    else
      var rest := InsertBy(x, s[1..], key);
      assert s == [s[0]] + s[1..];
      assert multiset(s) == multiset{s[0]} + multiset(s[1..]);
      assert multiset([s[0]] + rest) == multiset{s[0]} + multiset(rest);
      [s[0]] + rest
  }

  /** Inserting keeps a lower bound that x and every element of s meet. */
  lemma InsertByBound<T>(x: T, s: seq<T>, key: T -> real, bound: real)
    requires key(x) >= bound
    requires forall i :: 0 <= i < |s| ==> key(s[i]) >= bound
    ensures forall i :: 0 <= i < |s| + 1 ==> key(InsertBy(x, s, key)[i]) >= bound
  {
    var r := InsertBy(x, s, key);
    forall i | 0 <= i < |r|
      ensures key(r[i]) >= bound
    {
      assert r[i] in multiset(r);
      if r[i] != x {
        assert r[i] in multiset(s);
        var m :| 0 <= m < |s| && s[m] == r[i];
      }
    }
  }

  /** Inserting into a sorted sequence keeps it sorted. */
  lemma {:induction false} InsertBySorted<T>(x: T, s: seq<T>, key: T -> real)
    requires SortedBy(s, key)
    ensures SortedBy(InsertBy(x, s, key), key)
  {
    if s != [] && key(x) > key(s[0]) {
      var tail := s[1..];
      var rest := InsertBy(x, tail, key);
      InsertBySorted(x, tail, key);
      assert forall i :: 0 <= i < |tail| ==> tail[i] == s[i + 1];
      InsertByBound(x, tail, key, key(s[0]));
      var r := [s[0]] + rest;
      forall i, j | 0 <= i < j < |r|
        ensures key(r[i]) <= key(r[j])
      {
        assert r[j] == rest[j - 1];
        if i > 0 {
          assert r[i] == rest[i - 1];
        }
      }
    }
  }

  /** `Array.prototype.sort` with the comparator `(a, b) => key(a) - key(b)`:
      a stable ascending sort by a numeric key. */
  function SortBy<T(==)>(s: seq<T>, key: T -> real): (r: seq<T>)
    ensures multiset(r) == multiset(s)
    ensures |r| == |s|
    ensures SortedBy(r, key)
  {
    if s == [] then []
    else
      assert s == [s[0]] + s[1..];
      InsertBySorted(s[0], SortBy(s[1..], key), key);
      InsertBy(s[0], SortBy(s[1..], key), key)
  }

  /** The first element of a sorted, non-empty copy is an element of the input. */
  lemma SortedHeadIn<T>(s: seq<T>, key: T -> real)
    requires s != []
    ensures SortBy(s, key) != [] && SortBy(s, key)[0] in s
  {
    var r := SortBy(s, key);
    assert r[0] in multiset(r);
  }

  /** s[i] has the greatest key in s, and every element before it a smaller one:
      what a scan keeping the first strict improvement ends on. */
  ghost predicate FirstMaxAt<T>(s: seq<T>, key: T -> real, i: int)
  {
    && 0 <= i < |s|
    && (forall j :: 0 <= j < |s| ==> key(s[j]) <= key(s[i]))
    && (forall j :: 0 <= j < i ==> key(s[j]) < key(s[i]))
  }

  /** After scanning s[..i], best is the first index of greatest key. */
  ghost predicate MaxScan<T>(s: seq<T>, key: T -> real, i: nat, best: nat)
  {
    && best < i <= |s|
    && (forall j :: 0 <= j < i ==> key(s[j]) <= key(s[best]))
    && (forall j :: 0 <= j < best ==> key(s[j]) < key(s[best]))
  }

  /** One step of the scan: move to s[i] only when its key is strictly greater. */
  lemma MaxScanStep<T>(s: seq<T>, key: T -> real, i: nat, best: nat, best': nat)
    requires i < |s| && (i == 0 || MaxScan(s, key, i, best))
    requires best' == if i == 0 || key(s[i]) > key(s[best]) then i else best
    ensures MaxScan(s, key, i + 1, best')
  {
  }

  /** The first element of a sorted copy has the least key of the input. */
  lemma SortedHeadLeast<T>(s: seq<T>, key: T -> real)
    requires s != []
    ensures SortBy(s, key) != [] && SortBy(s, key)[0] in s
    ensures forall x :: x in s ==> key(SortBy(s, key)[0]) <= key(x)
  {
    var r := SortBy(s, key);
    assert r[0] in multiset(r);
    forall x | x in s
      ensures key(r[0]) <= key(x)
    {
      assert x in multiset(r);
      var k :| 0 <= k < |r| && r[k] == x;
    }
  }

  /** Every element of a sorted copy comes from the input. */
  lemma SortedIn<T>(s: seq<T>, key: T -> real, i: nat)
    requires i < |s|
    ensures SortBy(s, key)[i] in s
  {
    var r := SortBy(s, key);
    assert r[i] in multiset(r);
  }

  /** A sorted copy holds exactly the elements of the input. */
  lemma SortedMembers<T>(s: seq<T>, key: T -> real)
    ensures forall x :: x in SortBy(s, key) <==> x in s
  {
    var r := SortBy(s, key);
    forall x
      ensures x in r <==> x in s
    {
      assert x in r <==> x in multiset(r);
      assert x in s <==> x in multiset(s);
    }
  }

  /** `a / b` over the reals, for counts a out of b. */
  function Ratio(a: nat, b: nat): (q: real)
    requires b > 0
    ensures a <= b ==> 0.0 <= q <= 1.0
    ensures a == b ==> q == 1.0
    ensures a == 0 ==> q == 0.0
  {
    var q := a as real / b as real;
    assert q * b as real == a as real;
    q
  }

  /** A fraction of a non-negative amount lies between zero and the amount. */
  lemma ScaleBounded(x: real, h: real)
    requires 0.0 <= x <= 1.0 && h >= 0.0
    ensures 0.0 <= x * h <= h
  {
    assert (1.0 - x) * h >= 0.0;
  }

  /** `Math.pow(x, n)` for a natural exponent. */
  function Pow(x: real, n: nat): (r: real)
    ensures 0.0 <= x <= 1.0 ==> 0.0 <= r <= 1.0
    ensures n == 0 || x == 1.0 ==> r == 1.0
    ensures n > 0 && x == 0.0 ==> r == 0.0
  {
    if n == 0 then 1.0
    else
      var p := Pow(x, n - 1);
      assert 0.0 <= x <= 1.0 ==> 0.0 <= x * p <= 1.0 by {
        if 0.0 <= x <= 1.0 {
          assert x * p <= 1.0 * p;
        }
      }
      x * p
  }

  // ----- integer facts behind `(start + i) % n` -----

  lemma MulAtLeast(n: int, x: int)
    requires n > 0 && x >= 1
    ensures n * x >= n
  {
    var y := x - 1;
    assert n * x == n * y + n;
    assert n * y >= 0;
  }

  /** Euclidean division is determined by quotient and remainder. */
  lemma ModUnique(a: int, n: int, q: int, r: int)
    requires n > 0 && 0 <= r < n && a == n * q + r
    ensures a % n == r && a / n == q
  {
    var q', r' := a / n, a % n;
    assert a == n * q' + r';
    if q > q' {
      assert n * (q - q') == n * q - n * q';
      MulAtLeast(n, q - q');
    } else if q < q' {
      assert n * (q' - q) == n * q' - n * q;
      MulAtLeast(n, q' - q);
    }
  }

  /** Adding k commutes with reduction modulo n. */
  lemma ModShift(a: int, k: int, n: int)
    requires n > 0
    ensures (a + k) % n == (a % n + k) % n
  {
    var q, r := a / n, a % n;
    assert a == n * q + r;
    var b := r + k;
    var q2, r2 := b / n, b % n;
    assert b == n * q2 + r2;
    assert a + k == n * (q + q2) + r2;
    ModUnique(a + k, n, q + q2, r2);
  }

  /** For 0 <= i < n the seats (start + i) % n, as the source computes them,
      are the sequence start % n, start % n + 1, ... wrapping once past n - 1. */
  lemma SeatLinear(start: int, i: int, n: int)
    requires n > 0 && 0 <= i < n
    ensures (start + i) % n == if start % n + i < n then start % n + i else start % n + i - n
  {
    ModShift(start, i, n);
    var b := start % n + i;
    if b < n {
      ModUnique(b, n, 0, b);
    } else {
      ModUnique(b, n, 1, b - n);
    }
  }

  /** The seat i places after `start` round a table of n: `(start + i) % n`. */
  function Seat(start: int, i: int, n: int): (p: int)
    requires n > 0
    ensures 0 <= p < n
  {
    (start + i) % n
  }

  /** n consecutive seats are pairwise different. */
  lemma SeatsDistinct(start: int, i: int, j: int, n: int)
    requires n > 0 && 0 <= i < n && 0 <= j < n && i != j
    ensures Seat(start, i, n) != Seat(start, j, n)
  {
    SeatLinear(start, i, n);
    SeatLinear(start, j, n);
  }

  /** n consecutive seats visit every seat: seat p is reached after SeatOffset steps. */
  function SeatOffset(start: int, p: int, n: int): (i: int)
    requires n > 0 && 0 <= p < n
    ensures 0 <= i < n && Seat(start, i, n) == p
  {
    var s := start % n;
    var i := if s <= p then p - s else p - s + n;
    SeatLinear(start, i, n);
    i
  }

  /** The next seat: `(a + 1) % n` wraps to 0 after n - 1. */
  lemma ModStep(a: int, n: int)
    requires n > 0
    ensures (a + 1) % n == if a % n + 1 == n then 0 else a % n + 1
  {
    var q, r := a / n, a % n;
    assert a == n * q + r;
    if r + 1 == n {
      ModUnique(a + 1, n, q + 1, 0);
    } else {
      ModUnique(a + 1, n, q, r + 1);
    }
  }
}
