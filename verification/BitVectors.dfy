/** Numbers as register contents. */
module BitVectors {

  /** A register holds any number that fits it. */
  lemma Holds(v: int)
    requires 0 <= v < 256
    ensures (v as bv8) as int == v
  {
  }
}
