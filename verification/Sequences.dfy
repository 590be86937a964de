/** Sequences: their members, their parts, and putting together what each element gives. */
module Sequences {

  ghost predicate NoDuplicates<T>(xs: seq<T>) {
    forall i, j :: 0 <= i < j < |xs| ==> xs[i] != xs[j]
  }

  ghost predicate OccursAt<T>(xs: seq<T>, part: seq<T>, i: int) {
    0 <= i && i + |part| <= |xs| && xs[i..i+|part|] == part
  }

  // ---------- keeping some elements, in order ----------

  ghost predicate Ascends(at: seq<nat>) {
    forall j, k :: 0 <= j < k < |at| ==> at[j] < at[k]
  }

  /** `ys` are, in order, the elements of `xs` at the positions `at`. */
  ghost predicate ElementsAt<T>(xs: seq<T>, at: seq<nat>, ys: seq<T>) {
    |ys| == |at| && Ascends(at) && forall k :: 0 <= k < |at| ==> at[k] < |xs| && ys[k] == xs[at[k]]
  }

  /** `ys` are exactly the elements of `xs` to keep, in order; `at` says where each one stood. */
  ghost predicate Filters<T>(xs: seq<T>, at: seq<nat>, ys: seq<T>, keep: T -> bool) {
    ElementsAt(xs, at, ys) && forall i: nat :: i < |xs| ==> (i in at <==> keep(xs[i]))
  }

  lemma FiltersSnoc<T>(xs: seq<T>, at: seq<nat>, ys: seq<T>, keep: T -> bool, x: T)
    requires Filters(xs, at, ys, keep)
    ensures if keep(x) then Filters(xs + [x], at + [|xs|], ys + [x], keep) else Filters(xs + [x], at, ys, keep)
  {
    forall i: nat | i < |xs| + 1 ensures i in (if keep(x) then at + [|xs|] else at) <==> keep((xs + [x])[i]) {
      if i < |xs| { assert (xs + [x])[i] == xs[i]; }
    }
  }

  lemma FiltersKeeps<T>(xs: seq<T>, at: seq<nat>, ys: seq<T>, keep: T -> bool)
    requires Filters(xs, at, ys, keep)
    ensures forall x :: x in ys <==> x in xs && keep(x)
  {
    forall x ensures x in ys <==> x in xs && keep(x) {
      if x in ys {
        var k :| 0 <= k < |ys| && ys[k] == x;
        assert at[k] in at;
      }
      if x in xs && keep(x) {
        var i: nat :| i < |xs| && xs[i] == x;
        assert i in at;
        var k :| 0 <= k < |at| && at[k] == i;
        assert ys[k] == x;
      }
    }
  }

  // ---------- gathering ----------

  function Gather<T, U>(xs: seq<T>, f: T -> seq<U>): seq<U> {
    if xs == [] then [] else Gather(xs[..|xs|-1], f) + f(xs[|xs|-1])
  }

  lemma GatherSnoc<T, U>(xs: seq<T>, x: T, f: T -> seq<U>)
    ensures Gather(xs + [x], f) == Gather(xs, f) + f(x)
  {
    assert (xs + [x])[..|xs|] == xs;
  }

  lemma GatherOne<T, U>(x: T, f: T -> seq<U>)
    ensures Gather([x], f) == f(x)
  {
    GatherSnoc([], x, f);
    assert [] + [x] == [x];
  }

  lemma {:induction false} GatherConcat<T, U>(a: seq<T>, b: seq<T>, f: T -> seq<U>)
    ensures Gather(a + b, f) == Gather(a, f) + Gather(b, f)
  {
    if b == [] {
      assert a + b == a;
    } else {
      var front, last := b[..|b|-1], b[|b|-1];
      calc {
        Gather(a + b, f);
        { assert a + b == a + front + [last]; }
        Gather(a + front + [last], f);
        { GatherSnoc(a + front, last, f); }
        Gather(a + front, f) + f(last);
        { GatherConcat(a, front, f); }
        Gather(a, f) + Gather(front, f) + f(last);
        Gather(a, f) + (Gather(front, f) + f(last));
      }
    }
  }

  lemma {:induction false} GatherMembers<T, U>(xs: seq<T>, f: T -> seq<U>)
    ensures forall u :: u in Gather(xs, f) <==> exists x :: x in xs && u in f(x)
  {
    if xs == [] {
    } else {
      var front, last := xs[..|xs|-1], xs[|xs|-1];
      assert xs == front + [last];
      GatherMembers(front, f);
    }
  }

  lemma {:induction false} GatherNothing<T, U>(xs: seq<T>, f: T -> seq<U>)
    requires forall x :: x in xs ==> f(x) == []
    ensures Gather(xs, f) == []
  {
    if xs == [] {
    } else {
      assert xs[|xs|-1] in xs;
      GatherNothing(xs[..|xs|-1], f);
    }
  }

  lemma {:induction false} GatherEach<T>(xs: seq<T>, f: T -> seq<T>)
    requires forall x :: x in xs ==> f(x) == [x]
    ensures Gather(xs, f) == xs
  {
    if xs == [] {
    } else {
      assert xs[|xs|-1] in xs;
      GatherEach(xs[..|xs|-1], f);
      assert xs == xs[..|xs|-1] + [xs[|xs|-1]];
    }
  }

  /** Gathering twice is gathering once what the two make of each element. */
  lemma {:induction false} GatherGather<T, U, V>(xs: seq<T>, f: T -> seq<U>, g: U -> seq<V>, both: T -> seq<V>)
    requires forall x :: x in xs ==> Gather(f(x), g) == both(x)
    ensures Gather(Gather(xs, f), g) == Gather(xs, both)
  {
    if xs == [] {
    } else {
      var front, last := xs[..|xs|-1], xs[|xs|-1];
      assert last in xs;
      GatherGather(front, f, g, both);
      GatherConcat(Gather(front, f), f(last), g);
    }
  }

  /** Step `i` of the partial sums adds what element `i` gives. */
  ghost predicate Adds<T, U>(sums: seq<seq<U>>, xs: seq<T>, f: T -> seq<U>, i: nat)
    requires i < |xs| && |sums| == |xs| + 1
  {
    sums[i+1] == sums[i] + f(xs[i])
  }

  lemma {:induction false} SumsAreGathered<T, U>(sums: seq<seq<U>>, xs: seq<T>, f: T -> seq<U>, n: nat)
    requires |sums| == |xs| + 1 && sums[0] == [] && n <= |xs|
    requires forall i: nat :: i < |xs| ==> Adds(sums, xs, f, i)
    ensures sums[n] == Gather(xs[..n], f)
  {
    if n == 0 {
    } else {
      SumsAreGathered(sums, xs, f, n - 1);
      assert Adds(sums, xs, f, n - 1);
      assert xs[..n] == xs[..n-1] + [xs[n-1]];
      GatherSnoc(xs[..n-1], xs[n-1], f);
    }
  }
}
