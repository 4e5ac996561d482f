/** What several of the models share. */
module Common {
  datatype Option<+T> = None | Some(value: T)

  /** Everything but the last element; runs are recursive on their last step. */
  function Butlast<T>(s: seq<T>): seq<T>
    requires s != []
  {
    s[..|s| - 1]
  }

  lemma Overwrites<K, V>(m: map<K, V>, key: K, v: V, w: V)
    ensures m[key := v][key := w] == m[key := w]
  {
  }

  lemma Associates<T>(a: seq<T>, b: seq<T>, c: seq<T>)
    ensures a + b + c == a + (b + c)
  {
  }

  function Copies<T>(x: T, n: nat): seq<T> { if n == 0 then [] else Copies(x, n - 1) + [x] }

  /** Every element `n` times over. */
  function Repeated<T>(s: seq<T>, n: nat): seq<T>
    decreases |s|
  {
    if s == [] then [] else Repeated(Butlast(s), n) + Copies(s[|s| - 1], n)
  }

  lemma {:induction false} RepeatedLast<T>(s: seq<T>, n: nat)
    requires s != [] && n > 0
    ensures var r, x := Repeated(s, n), s[|s| - 1];
            r != [] && r[|r| - 1] == x && Butlast(r) == Repeated(Butlast(s), n) + Copies(x, n - 1)
  {
    assert Repeated(s, n) == Repeated(Butlast(s), n) + Copies(s[|s| - 1], n - 1) + [s[|s| - 1]];
  }

  lemma {:induction false} RepeatedConcat<T>(a: seq<T>, b: seq<T>, n: nat)
    ensures Repeated(a + b, n) == Repeated(a, n) + Repeated(b, n)
    decreases |b|
  {
    if b == [] {
      assert a + b == a;
    } else {
      RepeatedConcat(a, Butlast(b), n);
      assert Butlast(a + b) == a + Butlast(b);
      Associates(Repeated(a, n), Repeated(Butlast(b), n), Copies(b[|b| - 1], n));
    }
  }

  lemma {:induction false} CopiesLength<T>(x: T, n: nat)
    ensures |Copies(x, n)| == n && forall i :: 0 <= i < n ==> Copies(x, n)[i] == x
  {
    if n > 0 { CopiesLength(x, n - 1); }
  }

  lemma {:induction false} RepeatedMembers<T>(s: seq<T>, n: nat)
    ensures forall x :: x in Repeated(s, n) ==> x in s
    decreases |s|
  {
    if s != [] {
      RepeatedMembers(Butlast(s), n);
      CopiesLength(s[|s| - 1], n);
    }
  }

  lemma CopiesSnoc<T>(s: seq<T>, x: T, n: nat)
    requires n > 0
    ensures var all := s + Copies(x, n);
            all != [] && all[|all| - 1] == x && Butlast(all) == s + Copies(x, n - 1)
  {
  }

  lemma NoCopies<T>(s: seq<T>, x: T)
    ensures s + Copies(x, 0) == s
  {
  }

  /** `a` extended by copies of `x`, put together from its last step. */
  lemma CopiesFromLast<T>(all: seq<T>, a: seq<T>, x: T, n: nat)
    requires n > 0 && all != [] && all[|all| - 1] == x && Butlast(all) == a + Copies(x, n - 1)
    ensures all == a + Copies(x, n)
  {
    assert all == Butlast(all) + [x];
  }

  lemma CopiesEnd<T>(all: seq<T>, a: seq<T>, x: T, n: nat)
    requires all == a + Copies(x, n + 1)
    ensures all == a + Copies(x, n) + [x]
  {
    Associates(a, Copies(x, n), [x]);
  }

  lemma ButlastConcat<T>(a: seq<T>, b: seq<T>)
    requires b != []
    ensures a + b != [] && Butlast(a + b) == a + Butlast(b) && (a + b)[|a + b| - 1] == b[|b| - 1]
  {
  }

  // -------------------------------------------------------------------------- filtering

  /** `out[k]` is `whole[at[k]]`, and `at` lists in ascending order the places `keep` wants. */
  ghost predicate PicksAt<T>(out: seq<T>, whole: seq<T>, keep: T -> bool, at: seq<nat>) {
    && |at| == |out|
    && (forall k :: 0 <= k < |at| ==> at[k] < |whole| && out[k] == whole[at[k]])
    && (forall k, l :: 0 <= k < l < |at| ==> at[k] < at[l])
    && forall i :: 0 <= i < |whole| ==> (keep(whole[i]) <==> i in at)
  }

  /** `out` is exactly what `keep` wants of `whole`, in the order of `whole`. */
  ghost predicate Picks<T>(out: seq<T>, whole: seq<T>, keep: T -> bool) {
    exists at: seq<nat> :: PicksAt(out, whole, keep, at)
  }

  lemma PicksNothing<T>(keep: T -> bool)
    ensures Picks([], [], keep)
  {
    assert PicksAt([], [], keep, []);
  }

  lemma PicksOneMore<T>(out: seq<T>, whole: seq<T>, keep: T -> bool, x: T, at: seq<nat>)
    requires PicksAt(out, whole, keep, at) && keep(x)
    ensures PicksAt(out + [x], whole + [x], keep, at + [|whole|])
  {
    var all, more := whole + [x], at + [|whole|];
    forall i | 0 <= i < |all| ensures keep(all[i]) <==> i in more {
      assert i in more <==> i in at || i == |whole|;
      if i in at { var k :| 0 <= k < |at| && at[k] == i; }
    }
  }

  lemma PicksNoMore<T>(out: seq<T>, whole: seq<T>, keep: T -> bool, x: T, at: seq<nat>)
    requires PicksAt(out, whole, keep, at) && !keep(x)
    ensures PicksAt(out, whole + [x], keep, at)
  {
    var all := whole + [x];
    forall i | 0 <= i < |all| ensures keep(all[i]) <==> i in at {
      if i in at { var k :| 0 <= k < |at| && at[k] == i; }
    }
  }

  lemma PicksLast<T>(out: seq<T>, whole: seq<T>, keep: T -> bool)
    requires whole != [] && Picks(out, Butlast(whole), keep)
    ensures var last := whole[|whole| - 1]; Picks(out + (if keep(last) then [last] else []), whole, keep)
  {
    var init, last := Butlast(whole), whole[|whole| - 1];
    var at: seq<nat> :| PicksAt(out, init, keep, at);
    assert whole == init + [last] && out + [] == out;
    if keep(last) { PicksOneMore(out, init, keep, last, at); } else { PicksNoMore(out, init, keep, last, at); }
  }
}
