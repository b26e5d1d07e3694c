/** The half-step sequencer of a 28BYJ-48 unipolar stepper: an 8-entry
    table of coil patterns and the phase counter that walks it. */
module HalfStep {

  /** A position in the half-step table. */
  type Phase = p: int | 0 <= p < 8

  /** The four coil outputs IN1..IN4 of one ULN2003 driver (true = HIGH). */
  datatype Coils = Coils(in1: bool, in2: bool, in3: bool, in4: bool)

  /** All four coils driven LOW. */
  const Off: Coils := Coils(false, false, false, false)

  /** `halfStepSequence`: one coil, then two neighbouring coils, around the ring. */
  const Sequence: seq<Coils> := [
    Coils(true,  false, false, false),
    Coils(true,  true,  false, false),
    Coils(false, true,  false, false),
    Coils(false, true,  true,  false),
    Coils(false, false, true,  false),
    Coils(false, false, true,  true),
    Coils(false, false, false, true),
    Coils(true,  false, false, true)
  ]

  function Pattern(p: Phase): Coils
  {
    Sequence[p]
  }

  function Bit(b: bool): nat
  {
    if b then 1 else 0
  }

  /** Number of coils a pattern energises. */
  function Energised(c: Coils): nat
  {
    Bit(c.in1) + Bit(c.in2) + Bit(c.in3) + Bit(c.in4)
  }

  /** Number of coils whose level differs between two patterns. */
  function Changed(a: Coils, b: Coils): nat
  {
    Bit(a.in1 != b.in1) + Bit(a.in2 != b.in2) + Bit(a.in3 != b.in3) + Bit(a.in4 != b.in4)
  }

  /** One half-step: increment with a reset to 0 past 7 (clockwise), or
      decrement with a reset to 7 below 0. The contract states the effect as
      Euclidean arithmetic modulo 8. */
  function Advance(p: Phase, clockwise: bool): (q: Phase)
    ensures clockwise ==> q == (p + 1) % 8
    ensures !clockwise ==> q == (p - 1) % 8
  {
    if clockwise then
      (if p + 1 >= 8 then 0 else p + 1)
    else
      (if p - 1 < 0 then 7 else p - 1)
  }

  /** A step back undoes a step forward and vice versa. */
  lemma AdvanceInverse(p: Phase, clockwise: bool)
    ensures Advance(Advance(p, clockwise), !clockwise) == p
  {
  }

  /** Every pair of neighbouring table entries, including the wrap from
      entry 7 back to entry 0, differs in exactly one coil. */
  lemma NeighboursDifferInOneCoil(p: Phase)
    ensures Changed(Pattern(p), Pattern(Advance(p, true))) == 1
  {
  }

  /** Even entries energise a single coil, odd entries two neighbouring coils. */
  lemma EnergisedCoilCount(p: Phase)
    ensures Energised(Pattern(p)) == (if p % 2 == 0 then 1 else 2)
    ensures Pattern(p) != Off
  {
  }
}
