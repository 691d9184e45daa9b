// The identifier supplier: a pool of pre-reserved identifiers read at the
// index given by a process-wide counter that only goes up. The counter
// behaves like lodash's uniqueId: it is incremented before it is read, so
// the first identifier handed out is pool[1] and pool[0] is never used.
module Identifiers {

  /** No identifier occurs twice in `s`. */
  predicate Distinct(s: seq<string>) {
    forall i, j :: 0 <= i < j < |s| ==> s[i] != s[j]
  }

  /** A pool whose counter stands at `counter` can serve `n` more draws. */
  predicate CanDraw(pool: seq<string>, counter: nat, n: nat) {
    n == 0 || counter + n < |pool|
  }

  /** The `n` identifiers the pool holds from position `lo` on, in order. */
  function Window(pool: seq<string>, lo: nat, n: nat): (r: seq<string>)
    requires lo + n <= |pool|
    ensures |r| == n
  {
    if n == 0 then [] else Window(pool, lo, n - 1) + [pool[lo + n - 1]]
  }

  /** A window is the slice of the pool it covers. */
  lemma {:induction false} WindowIsSlice(pool: seq<string>, lo: nat, n: nat)
    requires lo + n <= |pool|
    ensures Window(pool, lo, n) == pool[lo .. lo + n]
  {
    if n > 0 {
      WindowIsSlice(pool, lo, n - 1);
      assert pool[lo .. lo + n] == pool[lo .. lo + n - 1] + [pool[lo + n - 1]];
    }
  }

  /** Two adjacent windows make one. */
  lemma {:induction false} WindowJoin(pool: seq<string>, lo: nat, m: nat, n: nat)
    requires lo + m + n <= |pool|
    ensures Window(pool, lo, m) + Window(pool, lo + m, n) == Window(pool, lo, m + n)
  {
    if n > 0 {
      WindowJoin(pool, lo, m, n - 1);
      var x := pool[lo + m + n - 1];
      assert Window(pool, lo, m) + (Window(pool, lo + m, n - 1) + [x])
          == (Window(pool, lo, m) + Window(pool, lo + m, n - 1)) + [x];
    }
  }

  /** Any window of a pool without repeats is itself without repeats. */
  lemma DistinctWindow(pool: seq<string>, lo: nat, n: nat)
    requires Distinct(pool) && lo + n <= |pool|
    ensures Distinct(Window(pool, lo, n))
  {
    WindowIsSlice(pool, lo, n);
    var w := pool[lo .. lo + n];
    forall i, j | 0 <= i < j < n
      ensures w[i] != w[j]
    {
      assert w[i] == pool[lo + i] && w[j] == pool[lo + j];
    }
  }

  /** In a pool without repeats, an entry before a window is not in it. */
  lemma WindowExcludes(pool: seq<string>, lo: nat, n: nat, i: nat)
    requires Distinct(pool) && lo + n <= |pool| && i < lo
    ensures pool[i] !in Window(pool, lo, n)
  {
    WindowIsSlice(pool, lo, n);
    var w := pool[lo .. lo + n];
    forall j | 0 <= j < |w|
      ensures w[j] != pool[i]
    {
      assert w[j] == pool[lo + j];
    }
  }

  class IdSupplier {
    const pool: seq<string>
    var counter: nat     // the value uniqueId last returned; 0 before the first call

    constructor (pool: seq<string>)
      ensures this.pool == pool && counter == 0
    {
      this.pool := pool;
      counter := 0;
    }

    /** generateId: advance the counter, then read the pool at it. */
    method Next() returns (id: string)
      requires counter + 1 < |pool|
      modifies this
      ensures counter == old(counter) + 1 && counter >= 1
      ensures id == pool[counter]
    {
      counter := counter + 1;
      id := pool[counter];
    }
  }
}
