/**
 * Current limits as control-pilot duty cycles, and the car's reading of them (IEC 61851-1,
 * Annex A, Table A.8).
 */
module DutyCycle {
  /** The duty cycle that offers a current; 1.0 signals an invalid request. */
  function AmpereToDutyCycle(ampere: real): real {
    if ampere < 5.9 then 1.0
    else if ampere <= 6.1 then 0.1
    else if ampere < 52.5 then (if ampere > 51.0 then 51.0 else ampere) / 0.6 / 100.0
    else if ampere <= 80.0 then (ampere / 2.5 + 64.0) / 100.0
    else if ampere <= 80.1 then 0.97
    else 1.0
  }

  /** The current a car may draw at a duty cycle. */
  function DutyCycleToAmps(dc: real): real {
    if dc < 8.0 / 100.0 then 0.0
    else if dc < 85.0 / 100.0 then dc * 100.0 * 0.6
    else if dc < 96.0 / 100.0 then (dc * 100.0 - 64.0) * 2.5
    else if dc < 97.0 / 100.0 then 80.0
    else 0.0
  }

  /** The current a car reads off the duty cycle for a limit. */
  function Understood(ampere: real): real {
    if ampere < 5.9 || ampere > 80.0 then 0.0
    else if ampere <= 6.1 then 6.0
    else if ampere < 51.0 || 52.5 <= ampere then ampere
    else 52.5
  }

  /** Round trip: what the car understands, for every limit; in the two regular ranges it is the limit itself. */
  lemma DutyCycleRoundTrip(ampere: real)
    ensures DutyCycleToAmps(AmpereToDutyCycle(ampere)) == Understood(ampere)
  {
  }

  /** The car never understands more than the limit, except between 51 A and 52.5 A and just below 6 A. */
  lemma NeverMoreThanOffered(ampere: real)
    ensures DutyCycleToAmps(AmpereToDutyCycle(ampere)) > ampere <==>
      ampere < 0.0 || 5.9 <= ampere < 6.0 || 51.0 <= ampere < 52.5
  {
    DutyCycleRoundTrip(ampere);
  }

  /** A duty cycle with a meaning: 5 percent for digital communication, invalid, or the analogue range. */
  predicate Meaningful(dc: real) {
    dc == 0.05 || dc == 1.0 || 0.1 <= dc <= 0.96
  }

  lemma LimitsAreMeaningful(ampere: real)
    ensures Meaningful(AmpereToDutyCycle(ampere)) <==> !(80.0 < ampere <= 80.1)
  {
  }

  /** An invalid request is signalled exactly below 5.9 A and above 80.1 A. */
  lemma InvalidExactly(ampere: real)
    ensures AmpereToDutyCycle(ampere) == 1.0 <==> ampere < 5.9 || ampere > 80.1
  {
  }

  /** Points of Table A.8. */
  lemma KnownDutyCycles()
    ensures AmpereToDutyCycle(6.0) == 0.1 && AmpereToDutyCycle(30.0) == 0.5 && AmpereToDutyCycle(51.0) == 0.85
    ensures AmpereToDutyCycle(65.0) == 0.9 && AmpereToDutyCycle(80.0) == 0.96
    ensures DutyCycleToAmps(0.05) == 0.0 && DutyCycleToAmps(0.5) == 30.0 && DutyCycleToAmps(0.9) == 65.0
  {
  }
}
