/** Sequence operations that JavaScript arrays provide (`filter`, repeated `concat`) and their laws. */
module Seqs {

  /** The elements of `s` for which `keep` holds, in their order in `s` (`Array.prototype.filter`). */
  function Filter<T(!new)>(s: seq<T>, keep: T -> bool): (r: seq<T>)
    ensures |r| <= |s|
    ensures forall x :: x in r <==> x in s && keep(x)
  {
    if s == [] then [] else (if keep(s[0]) then [s[0]] else []) + Filter(s[1..], keep)
  }

  /** Filtering distributes over concatenation: relative order is preserved. */
  lemma {:induction false} FilterConcat<T(!new)>(s: seq<T>, t: seq<T>, keep: T -> bool)
    ensures Filter(s + t, keep) == Filter(s, keep) + Filter(t, keep)
  {
    if s == [] {
      assert s + t == t;
    } else {
      assert (s + t)[0] == s[0];
      assert (s + t)[1..] == s[1..] + t;
      FilterConcat(s[1..], t, keep);
    }
  }

  /** `n` copies of `s`, one after the other. */
  function Repeat<T>(s: seq<T>, n: nat): (r: seq<T>)
    ensures |r| == n * |s|
  {
    if n == 0 then [] else s + Repeat(s, n - 1)
  }

  /** Concatenating `m` copies and `n` copies gives `m + n` copies. */
  lemma {:induction false} RepeatAdd<T>(s: seq<T>, m: nat, n: nat)
    ensures Repeat(s, m) + Repeat(s, n) == Repeat(s, m + n)
  {
    if m == 0 {
      assert Repeat(s, m) + Repeat(s, n) == Repeat(s, n);
    } else {
      RepeatAdd(s, m - 1, n);
      assert Repeat(s, m) + Repeat(s, n) == s + (Repeat(s, m - 1) + Repeat(s, n));
    }
  }

  /** Position `k` of the repetition holds the element at `k` modulo the original length. */
  lemma {:induction false} RepeatAt<T>(s: seq<T>, n: nat, k: nat)
    requires k < n * |s|
    ensures Repeat(s, n)[k] == s[k % |s|]
  {
    var r := Repeat(s, n);
    assert r == s + Repeat(s, n - 1);
    if k < |s| {
      DivModUnique(k, |s|, 0, k);
    } else {
      assert n * |s| == |s| + (n - 1) * |s|;
      RepeatAt(s, n - 1, k - |s|);
      ModAfterSubtract(k, |s|);
    }
  }

  /** Quotient and remainder are unique. */
  lemma DivModUnique(x: int, m: int, q: int, r: int)
    requires 0 < m && 0 <= r < m && x == m * q + r
    ensures x % m == r
  {
    var q', r' := x / m, x % m;
    assert x == m * q' + r';
    assert q' == q by {
      if q' > q {
        MulAtLeast(m, q' - q);
      } else if q' < q {
        MulAtLeast(m, q - q');
      }
    }
  }

  lemma MulAtLeast(m: int, d: int)
    requires 0 < m && 1 <= d
    ensures m * d >= m
  {
  }

  /** Subtracting the modulus once does not change the remainder. */
  lemma ModAfterSubtract(x: nat, m: nat)
    requires 0 < m <= x
    ensures (x - m) % m == x % m
  {
    var q, r := (x - m) / m, (x - m) % m;
    assert x - m == m * q + r;
    assert x == m * (q + 1) + r;
    DivModUnique(x, m, q + 1, r);
  }

  /** Filtering a repetition repeats the filtered sequence. */
  lemma {:induction false} FilterRepeat<T(!new)>(s: seq<T>, n: nat, keep: T -> bool)
    ensures Filter(Repeat(s, n), keep) == Repeat(Filter(s, keep), n)
  {
    if n > 0 {
      FilterConcat(s, Repeat(s, n - 1), keep);
      FilterRepeat(s, n - 1, keep);
    }
  }
}
