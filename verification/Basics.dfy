/** Shared vocabulary: optional values, error-carrying results and counting. */
module Basics {

  datatype Option<+T> = None | Some(value: T)

  datatype Result<+T, +E> = Ok(value: T) | Err(error: E)

  function Max(a: int, b: int): int { if a < b then b else a }

  function Min(a: int, b: int): int { if a < b then a else b }

  lemma ConcatAssoc<T>(a: seq<T>, b: seq<T>, c: seq<T>)
    ensures (a + b) + c == a + (b + c)
  {
  }

  lemma TakePush<T>(s: seq<T>, i: nat)
    requires i < |s|
    ensures s[..i + 1] == s[..i] + [s[i]]
  {
  }

  lemma TakeAll<T>(s: seq<T>)
    ensures s[..|s|] == s
  {
  }

  /** Number of elements of `s` that satisfy `p`. */
  function Count<T>(s: seq<T>, p: T -> bool): nat
  {
    if s == [] then 0
    else Count(s[..|s| - 1], p) + (if p(s[|s| - 1]) then 1 else 0)
  }

  /** Number of adjacent pairs of `s` that satisfy `p`. */
  function CountPairs<T>(s: seq<T>, p: (T, T) -> bool): nat
  {
    if |s| < 2 then 0
    else CountPairs(s[..|s| - 1], p) + (if p(s[|s| - 2], s[|s| - 1]) then 1 else 0)
  }

  lemma CountPush<T>(s: seq<T>, x: T, p: T -> bool)
    ensures Count(s + [x], p) == Count(s, p) + (if p(x) then 1 else 0)
  {
    assert (s + [x])[..|s|] == s;
  }

  lemma CountPairsPush<T>(s: seq<T>, x: T, p: (T, T) -> bool)
    ensures CountPairs(s + [x], p) ==
            CountPairs(s, p) + (if s != [] && p(s[|s| - 1], x) then 1 else 0)
  {
    assert (s + [x])[..|s|] == s;
  }

  /** Appending elements that cannot end a counted pair leaves the count of pairs alone. */
  lemma {:induction false} CountPairsQuiet<T(!new)>(a: seq<T>, b: seq<T>, p: (T, T) -> bool)
    requires forall x, y :: y in b ==> !p(x, y)
    ensures CountPairs(a + b, p) == CountPairs(a, p)
  {
    if b == [] {
      assert a + b == a;
    } else {
      var m := |b| - 1;
      CountPairsQuiet(a, b[..m], p);
      assert a + b == (a + b[..m]) + [b[m]];
      CountPairsPush(a + b[..m], b[m], p);
    }
  }

  lemma {:induction false} CountPairsSum<T(!new)>(s: seq<T>, p: (T, T) -> bool, q: (T, T) -> bool, r: (T, T) -> bool)
    requires forall x, y :: x in s && p(x, y) ==> q(x, y) || r(x, y)
    ensures CountPairs(s, p) <= CountPairs(s, q) + CountPairs(s, r)
  {
    if |s| >= 2 {
      CountPairsSum(s[..|s| - 1], p, q, r);
      assert s[|s| - 2] in s;
    }
  }

  lemma {:induction false} CountAppend<T>(a: seq<T>, b: seq<T>, p: T -> bool)
    ensures Count(a + b, p) == Count(a, p) + Count(b, p)
  {
    if b == [] {
      assert a + b == a;
    } else {
      var m := |b| - 1;
      CountAppend(a, b[..m], p);
      assert a + b == (a + b[..m]) + [b[m]];
      CountPush(a + b[..m], b[m], p);
    }
  }

  lemma {:induction false} CountNone<T>(s: seq<T>, p: T -> bool)
    requires forall i :: 0 <= i < |s| ==> !p(s[i])
    ensures Count(s, p) == 0
  {
    if s != [] {
      CountNone(s[..|s| - 1], p);
    }
  }

  /** Appending elements that do not satisfy `p` leaves the count alone. */
  lemma CountQuiet<T>(a: seq<T>, b: seq<T>, p: T -> bool)
    requires forall x :: x in b ==> !p(x)
    ensures Count(a + b, p) == Count(a, p)
  {
    CountAppend(a, b, p);
    CountNone(b, p);
  }

  lemma {:induction false} CountWeaker<T>(s: seq<T>, p: T -> bool, q: T -> bool)
    requires forall x :: x in s && p(x) ==> q(x)
    ensures Count(s, p) <= Count(s, q)
  {
    if s != [] {
      CountWeaker(s[..|s| - 1], p, q);
    }
  }

  lemma {:induction false} CountUpdate<T>(s: seq<T>, i: nat, x: T, p: T -> bool)
    requires i < |s|
    ensures Count(s[i := x], p) == Count(s, p) - (if p(s[i]) then 1 else 0) + (if p(x) then 1 else 0)
  {
    var n := |s| - 1;
    if i == n {
      assert s[i := x][..n] == s[..n];
    } else {
      CountUpdate(s[..n], i, x, p);
      assert s[i := x][..n] == s[..n][i := x];
    }
  }

  lemma {:induction false} CountBound<T>(s: seq<T>, p: T -> bool)
    ensures Count(s, p) <= |s|
  {
    if s != [] {
      CountBound(s[..|s| - 1], p);
    }
  }
}
