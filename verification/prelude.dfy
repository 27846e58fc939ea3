/** Small shared vocabulary: optional values, instants and durations. */
module Prelude {

  datatype Option<+T> = None | Some(value: T)

  /** Instants and durations are whole nanoseconds, as in Go's `time` package. */
  type Instant = int
  type Duration = int

  const SECOND: Duration := 1_000_000_000
  const MINUTE: Duration := 60 * SECOND
  const HOUR: Duration := 60 * MINUTE

  function Min(a: int, b: int): int {
    if a <= b then a else b
  }

  function Max(a: int, b: int): int {
    if a >= b then a else b
  }

  /** Two maps agree on one key, its absence included. */
  ghost predicate SameAt<K, V>(a: map<K, V>, b: map<K, V>, k: K) {
    (k in a <==> k in b) && (k in a ==> a[k] == b[k])
  }

  /** What changes one key leaves the others as they were. */
  lemma OthersStay<K, V>(a: map<K, V>, b: map<K, V>, c: map<K, V>, p: K)
    requires forall q | q != p :: SameAt(a, b, q)
    requires b.Keys - {p} == c.Keys - {p} && forall q <- b.Keys - {p} :: b[q] == c[q]
    ensures forall q | q != p :: SameAt(a, c, q)
  {
    forall q | q != p
      ensures SameAt(a, c, q)
    {
      assert SameAt(a, b, q);
      assert q in b <==> q in b.Keys - {p};
      assert q in c <==> q in c.Keys - {p};
    }
  }
}
