/** Shared vocabulary: optional values, machine-width limits, saturating time
    differences and the arbitrary iteration order of a hash table. */
module Base {

  datatype Option<+T> = None | Some(value: T)

  const U32_MAX: nat := 0xFFFF_FFFF
  const U64_MAX: nat := 0xFFFF_FFFF_FFFF_FFFF

  type byte = x: int | 0 <= x < 256

  function Min(a: nat, b: nat): nat {
    if a <= b then a else b
  }

  /** `Instant::saturating_duration_since`. */
  function Elapsed(now: nat, since: nat): nat {
    if since <= now then now - since else 0
  }

  /** `usize::saturating_add(1)`. */
  function Increment(n: nat): nat {
    if n < U64_MAX then n + 1 else n
  }

  /** A duration in nanoseconds as a `u64` count of milliseconds. */
  function Millis(nanos: nat): (ms: nat)
    ensures ms <= U64_MAX
  {
    Min(nanos / 1_000_000, U64_MAX)
  }

  /** `order` lists every element of `s` exactly once. Iterating a hash table
      visits its keys in one such order, and nothing says which. */
  ghost predicate Enumerates<T>(order: seq<T>, s: set<T>) {
    && (forall i, j :: 0 <= i < j < |order| ==> order[i] != order[j])
    && (forall x :: x in order ==> x in s)
    && (forall x :: x in s ==> x in order)
  }

  lemma EnumerationLength<T>(order: seq<T>, s: set<T>)
    requires Enumerates(order, s)
    ensures |order| == |s|
  {
    if order != [] {
      var last := |order| - 1;
      assert order[last] in order;
      EnumerationLength(order[..last], s - {order[last]});
    } else {
      assert s == {};
    }
  }

  lemma SubsetSize<T>(a: set<T>, b: set<T>)
    requires a <= b
    ensures |a| <= |b|
  {
    assert b == a + (b - a);
  }

  /** One arbitrary iteration order of a set. */
  method Enumerate<T(==)>(s: set<T>) returns (order: seq<T>)
    ensures Enumerates(order, s)
  {
    order := [];
    var rest := s;
    while rest != {}
      invariant rest <= s
      invariant Enumerates(order, s - rest)
      decreases rest
    {
      var x :| x in rest;
      order := order + [x];
      rest := rest - {x};
    }
    assert s - rest == s;
  }
}
