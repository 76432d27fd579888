/** Sequence facts shared by every component: first-match search, sums and pigeonhole counting. */
module Collections {

  datatype Option<+T> = None | Some(value: T)

  /** A 32-bit counter is advanced modulo this. */
  const WORD := 0x1_0000_0000

  /** The value of a `uint32_t` after a pre-increment. */
  function NextWord(n: nat): (r: nat)
    ensures r < WORD
    ensures n + 1 < WORD ==> r == n + 1
    ensures n + 1 == WORD ==> r == 0
  {
    (n + 1) % WORD
  }

  /** The index at which a left-to-right scan for `p` stops, or |xs| when nothing matches. */
  function FirstIndex<T>(xs: seq<T>, p: T -> bool): (r: nat)
    ensures r <= |xs|
    ensures r < |xs| ==> p(xs[r])
    ensures forall j :: 0 <= j < r ==> !p(xs[j])
  {
    if xs == [] then 0
    else if p(xs[0]) then 0
    else 1 + FirstIndex(xs[1..], p)
  }

  /** Those two facts determine the scan. */
  lemma FirstIndexIs<T>(xs: seq<T>, p: T -> bool, r: nat)
    requires r <= |xs|
    requires r < |xs| ==> p(xs[r])
    requires forall j :: 0 <= j < r ==> !p(xs[j])
    ensures FirstIndex(xs, p) == r
  {
  }

  function Sum<T>(xs: seq<T>, f: T -> int): int {
    if xs == [] then 0 else f(xs[0]) + Sum(xs[1..], f)
  }

  lemma {:induction false} SumUpdate<T>(xs: seq<T>, i: nat, x: T, f: T -> int)
    requires i < |xs|
    ensures Sum(xs[i := x], f) == Sum(xs, f) - f(xs[i]) + f(x)
  {
    if i == 0 {
      assert xs[0 := x][1..] == xs[1..];
    } else {
      assert xs[i := x][1..] == xs[1..][i - 1 := x];
      SumUpdate(xs[1..], i - 1, x, f);
    }
  }

  lemma {:induction false} SumAppend<T>(xs: seq<T>, x: T, f: T -> int)
    ensures Sum(xs + [x], f) == Sum(xs, f) + f(x)
  {
    if xs == [] {
      assert xs + [x] == [x];
    } else {
      assert (xs + [x])[1..] == xs[1..] + [x];
      SumAppend(xs[1..], x, f);
    }
  }

  /** The sequence without its k-th element. */
  function Remove<T>(xs: seq<T>, k: nat): (r: seq<T>)
    requires k < |xs|
    ensures |r| == |xs| - 1
    ensures forall j :: 0 <= j < k ==> r[j] == xs[j]
    ensures forall j :: k <= j < |r| ==> r[j] == xs[j + 1]
  {
    xs[..k] + xs[k + 1..]
  }

  function Min(a: nat, b: nat): nat { if a < b then a else b }

  lemma Associative<T>(a: seq<T>, b: seq<T>, c: seq<T>)
    ensures a + b + c == a + (b + c)
  {
  }

  function Flatten<T>(parts: seq<seq<T>>): seq<T> {
    if parts == [] then [] else parts[0] + Flatten(parts[1..])
  }

  lemma {:induction false} FlattenConcat<T>(a: seq<seq<T>>, b: seq<seq<T>>)
    ensures Flatten(a + b) == Flatten(a) + Flatten(b)
  {
    if a == [] {
      assert a + b == b;
    } else {
      FlattenStep(a[0], a[1..]);
      FlattenStep(a[0], a[1..] + b);
      hide Flatten;
      assert a == [a[0]] + a[1..];
      Associative([a[0]], a[1..], b);
      FlattenConcat(a[1..], b);
      Associative(a[0], Flatten(a[1..]), Flatten(b));
    }
  }

  lemma FlattenStep<T>(part: seq<T>, parts: seq<seq<T>>)
    ensures Flatten([part] + parts) == part + Flatten(parts)
  {
    assert ([part] + parts)[1..] == parts;
  }

  predicate NoDup<T(==)>(xs: seq<T>) {
    forall i, j :: 0 <= i < j < |xs| ==> xs[i] != xs[j]
  }

  lemma {:induction false} NoDupSize<T>(xs: seq<T>)
    requires NoDup(xs)
    ensures |set x | x in xs| == |xs|
  {
    if xs == [] {
      assert (set x | x in xs) == {};
    } else {
      var rest := xs[1..];
      NoDupSize(rest);
      assert xs[0] !in rest;
      assert (set x | x in xs) == (set x | x in rest) + {xs[0]};
    }
  }

  /** Overwrite entry i with the last one and shorten. */
  function SwapRemove<T>(xs: seq<T>, i: nat): (r: seq<T>)
    requires i < |xs|
    ensures |r| == |xs| - 1
  {
    xs[i := xs[|xs| - 1]][..|xs| - 1]
  }

  /** On a duplicate-free list, swap-remove deletes exactly the chosen element. */
  lemma SwapRemoveExact<T>(xs: seq<T>, i: nat)
    requires i < |xs| && NoDup(xs)
    ensures NoDup(SwapRemove(xs, i))
    ensures forall k :: 0 <= k < |xs| - 1 ==> SwapRemove(xs, i)[k] == if k == i then xs[|xs| - 1] else xs[k]
    ensures forall x :: x in SwapRemove(xs, i) <==> x in xs && x != xs[i]
  {
    var r := SwapRemove(xs, i);
    var n := |xs| - 1;
    forall x | x in xs && x != xs[i]
      ensures x in r
    {
      var k :| 0 <= k < |xs| && xs[k] == x;
      if k == n {
        assert r[i] == x;
      } else {
        assert r[k] == x;
      }
    }
  }

  /** Names taken from slots are no more than the slots, and fewer when some slot carries none. */
  lemma {:induction false} Pigeonhole<T>(slots: seq<T>, name: T -> Option<nat>, names: set<nat>)
    requires forall x :: x in names ==> exists i :: 0 <= i < |slots| && name(slots[i]) == Some(x)
    ensures |names| <= |slots|
    ensures (exists i :: 0 <= i < |slots| && name(slots[i]) == None) ==> |names| < |slots|
  {
    if slots == [] {
      assert names == {};
    } else {
      var first, rest := name(slots[0]), slots[1..];
      var others := if first.Some? then names - {first.value} else names;
      forall x | x in others
        ensures exists i :: 0 <= i < |rest| && name(rest[i]) == Some(x)
      {
        var i :| 0 <= i < |slots| && name(slots[i]) == Some(x);
        assert rest[i - 1] == slots[i];
      }
      Pigeonhole(rest, name, others);
      if i :| 1 <= i < |slots| && name(slots[i]) == None {
        assert rest[i - 1] == slots[i];
      }
    }
  }
}
