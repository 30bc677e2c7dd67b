/**
 * The click bursts of the hero call-to-action and of the magnetic button:
 * twelve particles, particle `i` sent out at `(i / 12) * 360` degrees and
 * coloured blue or violet by the parity of `i`. Creating and removing the DOM
 * nodes, their random sizes and velocities, is not modelled.
 */
module Particles {

  const BurstSize: nat := 12
  const Blue: string := "#3b82f6"
  const Violet: string := "#8b5cf6"

  /** The background colour of particle `i`. */
  function Color(i: nat): (c: string)
    ensures c == Blue || c == Violet
    ensures c == Blue <==> i % 2 == 0
  {
    if i % 2 == 0 then Blue else Violet
  }

  /** The direction, in degrees, of particle `i` of `count`. */
  function Angle(i: nat, count: nat): (deg: real)
    requires i < count
    ensures 0.0 <= deg < 360.0
    ensures i == 0 ==> deg == 0.0
  {
    (i as real / count as real) * 360.0
  }

  /** Neighbouring particles never share a colour; colours repeat every second particle. */
  lemma ColorsAlternate(i: nat)
    ensures Color(i) != Color(i + 1)
    ensures Color(i + 2) == Color(i)
  {
  }

  /** In a burst of twelve, particle `i` flies at `30 * i` degrees. */
  lemma BurstAngle(i: nat)
    requires i < BurstSize
    ensures Angle(i, BurstSize) == 30.0 * i as real
  {
  }

  /** Later particles fly at strictly larger angles, so no two share a direction. */
  lemma AnglesIncrease(i: nat, j: nat, count: nat)
    requires i < j < count
    ensures Angle(i, count) < Angle(j, count)
  {
  }
}
