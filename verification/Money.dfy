/** Amounts are unsigned 64-bit piconero sums that saturate instead of wrapping. */
module Money {
  const MAX_U64: nat := 0xffff_ffff_ffff_ffff

  function Cap(n: nat): (r: nat)
    ensures r <= MAX_U64
  {
    if n <= MAX_U64 then n else MAX_U64
  }

  function SatAdd(a: nat, b: nat): nat { Cap(a + b) }

  function SatSub(a: nat, b: nat): nat { if b <= a then a - b else 0 }

  /** Capping early and late agree, which is why a saturating fold has one value in any order. */
  lemma SatAddCap(a: nat, b: nat)
    ensures SatAdd(Cap(a), b) == Cap(a + b)
    ensures SatAdd(a, Cap(b)) == Cap(a + b)
  {}
}
