/** Serial number arithmetic with SERIAL_BITS 32 (section 3.2 of RFC 1982), in
    the two forms the repository has it: the three-way comparison of the
    instructions' serials, and the combiner's "newer" of two CSYNC serials. */
module Serial {

  const HALF: int := 0x8000_0000
  const CIRCLE: int := 0x1_0000_0000

  type uint32 = x: int | 0 <= x < CIRCLE

  /** -1: a is before b; 1: a is after b; 0: equal, or 2^31 apart. */
  function CompareSerial(a: uint32, b: uint32): int {
    var d := (b - a) % CIRCLE;
    if d == 0 || d == HALF then 0 else if d < HALF then -1 else 1
  }

  predicate SerialNewer(a: uint32, b: uint32) {
    a != b && (a - b) % CIRCLE < HALF
  }

  /** How far s lies after the start of a half-circle. */
  function Rank(base: uint32, s: uint32): int {
    (s - base) % CIRCLE
  }

  /** s lies in the half of the circle that starts at base. */
  predicate InHalf(base: uint32, s: uint32) {
    Rank(base, s) < HALF
  }

  /** Neither of two different serials is newer exactly when they are opposite. */
  predicate Opposite(a: uint32, b: uint32) {
    (a - b) % CIRCLE == HALF
  }

  lemma OppositeIsSymmetric(a: uint32, b: uint32)
    ensures Opposite(a, b) <==> Opposite(b, a)
  {
    Reverse(a, b);
  }

  lemma Reverse(a: uint32, b: uint32)
    ensures (a - b) % CIRCLE == if a == b then 0 else CIRCLE - (b - a) % CIRCLE
  {
    if a > b {
      assert (b - a) % CIRCLE == b - a + CIRCLE;
    } else if a < b {
      assert (a - b) % CIRCLE == a - b + CIRCLE;
    }
  }

  /** The comparison is exactly antisymmetric, opposite serials included: it
      says 0 both ways there. */
  lemma CompareIsAntisymmetric(a: uint32, b: uint32)
    ensures CompareSerial(a, b) == -CompareSerial(b, a)
    ensures CompareSerial(a, b) == 0 <==> a == b || Opposite(a, b)
  {
    Reverse(a, b);
  }

  /** The two comparisons agree on every pair, the undefined ones included:
      section 3.2 of RFC 1982 leaves opposite serials unordered, and both read
      them as "not newer". */
  lemma NewerIsCompare(a: uint32, b: uint32)
    ensures SerialNewer(a, b) <==> CompareSerial(a, b) == 1
  {
    Reverse(a, b);
  }

  lemma RankIsInjective(base: uint32, a: uint32, b: uint32)
    requires Rank(base, a) == Rank(base, b)
    ensures a == b
  {
    Unwrap(base, a);
    Unwrap(base, b);
  }

  lemma Unwrap(base: uint32, s: uint32)
    ensures Rank(base, s) == if s >= base then s - base else s - base + CIRCLE
  {
  }

  /** Inside one half of the circle the arithmetic is the order of the ranks,
      so it is total and transitive there. */
  lemma CompareInsideAHalf(base: uint32, a: uint32, b: uint32)
    requires InHalf(base, a) && InHalf(base, b)
    ensures CompareSerial(a, b) == 1 <==> Rank(base, a) > Rank(base, b)
    ensures CompareSerial(a, b) == -1 <==> Rank(base, a) < Rank(base, b)
    ensures a != b <==> CompareSerial(a, b) != 0
  {
    Unwrap(base, a);
    Unwrap(base, b);
    var d := (b - a) % CIRCLE;
    assert d == if b >= a then b - a else b - a + CIRCLE;
  }
}
