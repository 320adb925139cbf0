/** Pieces every route handler shares: JavaScript truthiness of request
    fields, the JSON reply a handler answers with, and `Math.round` of a
    quotient of integers. */
module Http {

  datatype Option<+T> = None | Some(value: T)

  /** A string-valued field that JavaScript tests with `if (!x)`: it is
      truthy when it is present and not the empty string. */
  predicate Truthy(field: Option<string>) {
    field.Some? && field.value != ""
  }

  /** The JSON body of a reply: the payload or an error message. The
      report routes wrap them as `success: true, data` and `success: false,
      error`; the LP and login routes send `{ error }` for an error, and
      `{ message }` or the upstream JSON as it came for the payload. */
  datatype Body<+T> = Data(data: T) | Error(message: string)

  /** What `NextResponse.json(body, { status })` sends back. */
  datatype Reply<+T> = Reply(status: nat, body: Body<T>)

  /** `Math.round(n / d)` on exact rationals, for a positive divisor:
      the nearest integer, halves rounded up. */
  function RoundDiv(n: int, d: int): int
    requires d > 0
  {
    (2 * n + d) / (2 * d)
  }

  /** `RoundDiv(n, d)` is within a half of `n / d`, the upper half
      excluded: r - 1/2 <= n/d < r + 1/2. */
  lemma RoundDivBounds(n: int, d: int)
    requires d > 0
    ensures var r := RoundDiv(n, d); 2 * d * r <= 2 * n + d < 2 * d * r + 2 * d
  {
  }

  /** A count that is a share of a positive whole yields a percentage in
      [0, 100] in whatever unit `scale` stands for (100 for whole percent,
      1000 for tenths of a percent, up to `scale`). */
  lemma ShareBounds(count: int, whole: int, scale: nat)
    requires 0 <= count <= whole && whole > 0
    ensures 0 <= RoundDiv(scale * count, whole) <= scale
  {
    var n := scale * count;
    var r := RoundDiv(n, whole);
    RoundDivBounds(n, whole);
    MulMono(scale, 0, count);
    MulMono(scale, count, whole);
    if r < 0 {
      MulMono(2 * whole, r, -1);
    }
    if r > scale {
      MulMono(2 * whole, scale + 1, r);
    }
  }

  lemma MulMono(a: int, b: int, c: int)
    requires a >= 0 && b <= c
    ensures a * b <= a * c
  {
    assert a * c - a * b == a * (c - b);
  }
}

/** Generic helpers over sequences. */
module Seqs {

  /** Sum of a sequence, peeled from the end so that appending is cheap. */
  function Sum(s: seq<int>): int {
    if s == [] then 0 else Sum(s[..|s| - 1]) + s[|s| - 1]
  }

  lemma SumAppend(s: seq<int>, x: int)
    ensures Sum(s + [x]) == Sum(s) + x
  {
    assert (s + [x])[..|s|] == s;
  }

  /** The largest element (what `Math.max(...s)` yields on a non-empty
      list). */
  function Max(s: seq<int>): (m: int)
    requires |s| > 0
    ensures forall i :: 0 <= i < |s| ==> s[i] <= m
    ensures exists i :: 0 <= i < |s| && s[i] == m
  {
    if |s| == 1 then s[0]
    else
      var rest := Max(s[1..]);
      assert forall i :: 1 <= i < |s| ==> s[i] == s[1..][i - 1];
      if s[0] >= rest then s[0] else rest
  }

  /** `s.filter(p)`: the elements satisfying `p`, in their original order. */
  function Filter<T>(s: seq<T>, p: T -> bool): (r: seq<T>)
    ensures |r| <= |s|
  {
    if s == [] then [] else
      var rest := Filter(s[..|s| - 1], p);
      if p(s[|s| - 1]) then rest + [s[|s| - 1]] else rest
  }

  /** The filtered sequence holds exactly the elements satisfying `p`,
      each no more often than `s` does. */
  lemma {:induction false} FilterMembers<T>(s: seq<T>, p: T -> bool)
    ensures forall i :: 0 <= i < |Filter(s, p)| ==> Filter(s, p)[i] in s && p(Filter(s, p)[i])
    ensures forall i :: 0 <= i < |s| && p(s[i]) ==> s[i] in Filter(s, p)
    ensures multiset(Filter(s, p)) <= multiset(s)
  {
    if s != [] {
      var prefix, x := s[..|s| - 1], s[|s| - 1];
      var rest := Filter(prefix, p);
      FilterMembers(prefix, p);
      assert s == prefix + [x];
      assert forall i :: 0 <= i < |prefix| ==> prefix[i] == s[i];
      if p(x) {
        assert Filter(s, p) == rest + [x];
        assert forall i :: 0 <= i < |rest| ==> (rest + [x])[i] == rest[i];
      }
    }
  }

  lemma {:induction false} FilterConcat<T>(a: seq<T>, b: seq<T>, p: T -> bool)
    ensures Filter(a + b, p) == Filter(a, p) + Filter(b, p)
  {
    if b == [] {
      assert a + b == a;
    } else {
      var b' := b[..|b| - 1];
      assert (a + b)[..|a + b| - 1] == a + b';
      assert (a + b)[|a + b| - 1] == b[|b| - 1];
      FilterConcat(a, b', p);
    }
  }

  /** Filtering by `p` and then by `q` is filtering by both at once. */
  lemma {:induction false} FilterTwice<T>(s: seq<T>, p: T -> bool, q: T -> bool, pq: T -> bool)
    requires forall x :: pq(x) == (p(x) && q(x))
    ensures Filter(Filter(s, p), q) == Filter(s, pq)
  {
    if s != [] {
      var s' := s[..|s| - 1];
      var x := s[|s| - 1];
      FilterTwice(s', p, q, pq);
      if p(x) {
        assert Filter(s', p) + [x] == Filter(s, p);
        assert (Filter(s', p) + [x])[..|Filter(s', p) + [x]| - 1] == Filter(s', p);
      }
    }
  }

  /** Filtering depends only on what the predicate says of each element. */
  lemma {:induction false} FilterSame<T>(s: seq<T>, p: T -> bool, q: T -> bool)
    requires forall x :: p(x) == q(x)
    ensures Filter(s, p) == Filter(s, q)
  {
    if s != [] {
      FilterSame(s[..|s| - 1], p, q);
    }
  }

  /** A predicate every element satisfies filters nothing out. */
  lemma {:induction false} FilterKeepsAll<T>(s: seq<T>, p: T -> bool)
    requires forall i :: 0 <= i < |s| ==> p(s[i])
    ensures Filter(s, p) == s
  {
    if s != [] {
      FilterKeepsAll(s[..|s| - 1], p);
      assert s[..|s| - 1] + [s[|s| - 1]] == s;
    }
  }

  /** A predicate no element satisfies filters everything out. */
  lemma {:induction false} FilterKeepsNone<T>(s: seq<T>, p: T -> bool)
    requires forall i :: 0 <= i < |s| ==> !p(s[i])
    ensures Filter(s, p) == []
  {
    if s != [] {
      FilterKeepsNone(s[..|s| - 1], p);
    }
  }

  lemma FilterSingleton<T>(x: T, p: T -> bool)
    ensures Filter([x], p) == if p(x) then [x] else []
  {
    assert [x][..0] == [];
  }

  /** Every element with no repetition. */
  predicate NoDup<T(==)>(s: seq<T>) {
    forall i, j :: 0 <= i < j < |s| ==> s[i] != s[j]
  }

  /** Dropping one element keeps the rest free of duplicates. */
  lemma NoDupRemoveAt<T>(s: seq<T>, k: nat)
    requires NoDup(s) && k < |s|
    ensures NoDup(s[..k] + s[k + 1..])
  {
    var r := s[..k] + s[k + 1..];
    forall i | 0 <= i < |r| ensures r[i] == s[if i < k then i else i + 1] {
      if i >= k {
        assert r[i] == s[k + 1..][i - k];
      }
    }
    forall i, j | 0 <= i < j < |r| ensures r[i] != r[j] {
      assert r[i] == s[if i < k then i else i + 1];
      assert r[j] == s[if j < k then j else j + 1];
    }
  }

  /** `s.slice().reverse()`. */
  function Reverse<T>(s: seq<T>): (r: seq<T>)
    ensures |r| == |s|
  {
    if s == [] then [] else [s[|s| - 1]] + Reverse(s[..|s| - 1])
  }

  lemma {:induction false} ReverseAt<T>(s: seq<T>, k: nat)
    requires k < |s|
    ensures Reverse(s)[k] == s[|s| - 1 - k]
  {
    if k > 0 {
      ReverseAt(s[..|s| - 1], k - 1);
    }
  }
}

/** Filtering a sequence in which one index stands out. */
module FilterSplits {
  import opened Seqs

  /** When only the element at k fails `p`, filtering removes just it. */
  lemma {:induction false} FilterRemovesAt<T>(s: seq<T>, k: nat, p: T -> bool)
    requires k < |s| && !p(s[k])
    requires forall i :: 0 <= i < |s| && i != k ==> p(s[i])
    ensures Filter(s, p) == s[..k] + s[k + 1..]
  {
    var n := |s| - 1;
    var prefix, x := s[..n], s[n];
    assert forall i :: 0 <= i < n ==> prefix[i] == s[i];
    if k == n {
      FilterKeepsAll(prefix, p);
      assert s[..k] + s[k + 1..] == prefix;
    } else {
      FilterRemovesAt(prefix, k, p);
      assert Filter(s, p) == Filter(prefix, p) + [x];
      assert prefix[..k] == s[..k];
      assert prefix[k + 1..] + [x] == s[k + 1..];
    }
  }

  /** When only the element at k satisfies `p`, filtering keeps just it. */
  lemma {:induction false} FilterKeepsAt<T>(s: seq<T>, k: nat, p: T -> bool)
    requires k < |s| && p(s[k])
    requires forall i :: 0 <= i < |s| && i != k ==> !p(s[i])
    ensures Filter(s, p) == [s[k]]
  {
    var n := |s| - 1;
    var prefix := s[..n];
    assert forall i :: 0 <= i < n ==> prefix[i] == s[i];
    if k == n {
      FilterKeepsNone(prefix, p);
    } else {
      FilterKeepsAt(prefix, k, p);
    }
  }
}
