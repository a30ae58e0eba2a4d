/**
 * `FoliageDetailManager`: reacts to requests for more or less graphical
 * detail by stepping the foliage density and far distance down or up, within
 * fixed bounds, and lets the user set either value directly.
 */
module FoliageDetail {
  import opened Common

  /** What one step does to a value: nothing, or replace it. */
  datatype Adjustment = Unchanged | SetTo(value: real)

  /** The value after an adjustment. */
  function Apply(a: Adjustment, current: real): real
  {
    if a.SetTo? then a.value else current
  }

  function Abs(x: real): real
  {
    if x < 0.0 then -x else x
  }

  /** `stepDownFoliageDensity`: subtract the step, or drop a positive remainder smaller than the step to 0. */
  function DensityDown(density: real, step: real): Adjustment
  {
    if density > step then SetTo(density - step)
    else if density < step && density > 0.0 then SetTo(0.0)
    else Unchanged
  }

  /** `stepUpFoliageDensity`: add the step, or raise a density that the step would carry past 1 to exactly 1. */
  function DensityUp(density: real, step: real): Adjustment
  {
    if density + step <= 1.0 then SetTo(density + step)
    else if density < 1.0 then SetTo(1.0)
    else Unchanged
  }

  /**
   * `stepDownFoliageDistance` as written: the first branch subtracts the
   * step whenever the distance exceeds it, without looking at the minimum.
   */
  function DistanceDownAsWritten(distance: real, step: real, minimum: real): Adjustment
  {
    if distance > step then SetTo(distance - step)
    else if distance < step && distance > minimum then SetTo(minimum)
    else Unchanged
  }

  /**
   * `stepDownFoliageDistance` corrected to respect the minimum, the mirror
   * image of `stepUpFoliageDistance`: a distance above the step is lowered
   * by it only if that stays at or above the minimum, and is otherwise
   * snapped to the minimum, as a distance below the step already is. A
   * distance equal to the step is left alone, as the code leaves it.
   */
  function DistanceDown(distance: real, step: real, minimum: real): Adjustment
  {
    if distance > step && distance - step >= minimum then SetTo(distance - step)
    else if distance != step && distance > minimum then SetTo(minimum)
    else Unchanged
  }

  /** `stepUpFoliageDistance`: add the step, or raise a distance the step would carry past the maximum to the maximum. */
  function DistanceUp(distance: real, step: real, maximum: real): Adjustment
  {
    if distance + step <= maximum then SetTo(distance + step)
    else if distance < maximum then SetTo(maximum)
    else Unchanged
  }

  /** `setFoliageDensity`'s clamp to [0, 1]. */
  function ClampDensity(density: real): real
  {
    if density < 0.0 then 0.0 else if density > 1.0 then 1.0 else density
  }

  /** `setFoliageDistance`'s clamp: negative distances become 0, there is no upper bound. */
  function ClampDistance(distance: real): real
  {
    if distance < 0.0 then 0.0 else distance
  }

  /**
   * Stepping density down never makes it negative and, for a positive step,
   * lowers it; it does nothing exactly when the density is not positive or
   * equals the step.
   */
  lemma DensityDownBounds(density: real, step: real)
    ensures DensityDown(density, step).SetTo? ==> DensityDown(density, step).value >= 0.0
    ensures step > 0.0 && DensityDown(density, step).SetTo? ==> DensityDown(density, step).value < density
    ensures step >= 0.0 ==> (DensityDown(density, step) == Unchanged <==> density <= 0.0 || density == step)
  {
  }

  /**
   * Stepping density up never takes it past 1; for a positive step it
   * raises the density, and does nothing exactly when the density is
   * already at least 1.
   */
  lemma DensityUpBounds(density: real, step: real)
    ensures DensityUp(density, step).SetTo? ==> DensityUp(density, step).value <= 1.0
    ensures step > 0.0 && DensityUp(density, step).SetTo? ==> DensityUp(density, step).value > density
    ensures step > 0.0 ==> (DensityUp(density, step) == Unchanged <==> density >= 1.0)
  {
  }

  /**
   * Stepping the distance up never takes it past the maximum; for a
   * positive step it does nothing exactly when the distance is already
   * at least the maximum.
   */
  lemma DistanceUpBounds(distance: real, step: real, maximum: real)
    ensures DistanceUp(distance, step, maximum).SetTo? ==> DistanceUp(distance, step, maximum).value <= maximum
    ensures step > 0.0 && DistanceUp(distance, step, maximum).SetTo? ==> DistanceUp(distance, step, maximum).value > distance
    ensures step > 0.0 ==> (DistanceUp(distance, step, maximum) == Unchanged <==> distance >= maximum)
  {
  }

  /**
   * The corrected step down never takes the distance below the minimum and,
   * for a positive step, lowers it; it does nothing exactly when the distance
   * is already at or below the minimum or equals the step.
   */
  lemma DistanceDownBounds(distance: real, step: real, minimum: real)
    ensures DistanceDown(distance, step, minimum).SetTo? ==> DistanceDown(distance, step, minimum).value >= minimum
    ensures step > 0.0 && DistanceDown(distance, step, minimum).SetTo? ==> DistanceDown(distance, step, minimum).value < distance
    ensures step > 0.0 ==> (DistanceDown(distance, step, minimum) == Unchanged <==> distance <= minimum || distance == step)
  {
  }

  /**
   * The two versions differ exactly where the code's first branch crosses
   * the minimum: a distance above the step by less than the minimum.
   */
  lemma DistanceDownAgrees(distance: real, step: real, minimum: real)
    ensures DistanceDown(distance, step, minimum) == DistanceDownAsWritten(distance, step, minimum)
            <==> !(step < distance < step + minimum)
  {
  }

  /**
   * A distance above the minimum but below the step snaps to the minimum,
   * in the code and in the corrected rule alike.
   */
  lemma DistanceDownSnaps(distance: real, step: real, minimum: real)
    requires 0.0 <= minimum < distance < step
    ensures DistanceDownAsWritten(distance, step, minimum) == SetTo(minimum)
    ensures DistanceDown(distance, step, minimum) == SetTo(minimum)
  {
  }

  /**
   * As written, three steps down from the initial far distance 1.0 with the
   * default step 0.3 reach 0.1, below the minimum far distance 0.3.
   */
  lemma DistanceDownBelowMinimumAsWritten()
    ensures DistanceDownAsWritten(1.0, 0.3, 0.3) == SetTo(0.7)
    ensures DistanceDownAsWritten(0.7, 0.3, 0.3) == SetTo(0.4)
    ensures DistanceDownAsWritten(0.4, 0.3, 0.3) == SetTo(0.1)
    ensures DistanceDownAsWritten(0.4, 0.3, 0.3).value < 0.3
  {
  }

  /** `setFoliageDensity` lands in [0, 1] and keeps a value already there. */
  lemma ClampDensityBounds(density: real)
    ensures 0.0 <= ClampDensity(density) <= 1.0
    ensures 0.0 <= density <= 1.0 <==> ClampDensity(density) == density
  {
  }

  /** `setFoliageDistance` never stores a negative distance and keeps every other value. */
  lemma ClampDistanceBounds(distance: real)
    ensures 0.0 <= ClampDistance(distance)
    ensures 0.0 <= distance <==> ClampDistance(distance) == distance
  {
  }

  /**
   * The foliage component the manager drives, reduced to the values it has
   * been handed, in order; the last one is the one in effect.
   */
  class Foliage {
    var densityUpdates: seq<real>
    var farDistanceUpdates: seq<real>

    constructor ()
      ensures densityUpdates == [] && farDistanceUpdates == []
    {
      densityUpdates := [];
      farDistanceUpdates := [];
    }

    method SetDensity(density: real)
      modifies this`densityUpdates
      ensures densityUpdates == old(densityUpdates) + [density]
    {
      densityUpdates := densityUpdates + [density];
    }

    method SetFarDistance(distance: real)
      modifies this`farDistanceUpdates
      ensures farDistanceUpdates == old(farDistanceUpdates) + [distance]
    {
      farDistanceUpdates := farDistanceUpdates + [distance];
    }
  }

  class FoliageDetailManager {
    const foliage: Foliage
    /** Requests weaker than this are ignored. */
    const thresholdLevel: real
    const defaultDensityStep: real
    const defaultDistanceStep: real
    const maxFarDistance: real
    const minFarDistance: real
    var updatedDensity: real
    var farDistance: real

    /** Density in [0, 1], distance not negative; the constants as the constructor sets them. */
    ghost predicate Valid()
      reads this
    {
      && thresholdLevel == 2.0 && defaultDensityStep == 0.3 && defaultDistanceStep == 0.3
      && maxFarDistance == 2.0 && minFarDistance == 0.3
      && 0.0 <= updatedDensity <= 1.0 && 0.0 <= farDistance
    }

    constructor (foliage: Foliage)
      ensures Valid()
      ensures this.foliage == foliage
      ensures updatedDensity == 1.0 && farDistance == 1.0
    {
      this.foliage := foliage;
      thresholdLevel := 2.0;
      defaultDensityStep := 0.3;
      updatedDensity := 1.0;
      defaultDistanceStep := 0.3;
      farDistance := 1.0;
      maxFarDistance := 2.0;
      minFarDistance := 0.3;
    }

    /**
     * `changeLevel`: ignore a request below the threshold; for a positive
     * level (more frames per second wanted) step density down, or distance
     * if density cannot go lower; for a negative level step up the same way.
     */
    method ChangeLevel(level: real) returns (changeMade: bool)
      requires Valid()
      modifies this`updatedDensity, this`farDistance, foliage
      ensures Valid()
      ensures Abs(level) < thresholdLevel ==>
                && !changeMade && updatedDensity == old(updatedDensity) && farDistance == old(farDistance)
                && foliage.densityUpdates == old(foliage.densityUpdates)
                && foliage.farDistanceUpdates == old(foliage.farDistanceUpdates)
      ensures Abs(level) >= thresholdLevel ==>
                var density := if level > 0.0 then DensityDown(old(updatedDensity), defaultDensityStep)
                               else DensityUp(old(updatedDensity), defaultDensityStep);
                var distance := if level > 0.0 then DistanceDown(old(farDistance), defaultDistanceStep, minFarDistance)
                                else DistanceUp(old(farDistance), defaultDistanceStep, maxFarDistance);
                && updatedDensity == Apply(density, old(updatedDensity))
                && farDistance == (if density.SetTo? then old(farDistance) else Apply(distance, old(farDistance)))
                && changeMade == (density.SetTo? || distance.SetTo?)
                && foliage.densityUpdates == old(foliage.densityUpdates) + (if density.SetTo? then [updatedDensity] else [])
                && foliage.farDistanceUpdates
                   == old(foliage.farDistanceUpdates) + (if !density.SetTo? && distance.SetTo? then [farDistance] else [])
    {
      if Abs(level) < thresholdLevel {
        return false;
      }
      changeMade := false;
      if level > 0.0 {
        var densityChanged := StepDownFoliageDensity(defaultDensityStep);
        changeMade := changeMade || densityChanged;
        if !changeMade {
          changeMade := StepDownFoliageDistance(defaultDistanceStep);
        }
      } else if level < 0.0 {
        var densityChanged := StepUpFoliageDensity(defaultDensityStep);
        changeMade := changeMade || densityChanged;
        if !changeMade {
          changeMade := StepUpFoliageDistance(defaultDistanceStep);
        }
      }
    }

    /** `stepDownFoliageDensity`; a change is handed on to the foliage. */
    method StepDownFoliageDensity(step: real) returns (changed: bool)
      modifies this`updatedDensity, foliage`densityUpdates
      ensures changed == DensityDown(old(updatedDensity), step).SetTo?
      ensures updatedDensity == Apply(DensityDown(old(updatedDensity), step), old(updatedDensity))
      ensures foliage.densityUpdates == old(foliage.densityUpdates) + (if changed then [updatedDensity] else [])
      ensures old(Valid()) && step >= 0.0 ==> Valid()
    {
      DensityDownBounds(updatedDensity, step);
      if updatedDensity > step {
        updatedDensity := updatedDensity - step;
        foliage.SetDensity(updatedDensity);
        return true;
      } else if updatedDensity < step && updatedDensity > 0.0 {
        updatedDensity := 0.0;
        foliage.SetDensity(updatedDensity);
        return true;
      } else {
        return false;
      }
    }

    /** `stepUpFoliageDensity`; a change is handed on to the foliage. */
    method StepUpFoliageDensity(step: real) returns (changed: bool)
      modifies this`updatedDensity, foliage`densityUpdates
      ensures changed == DensityUp(old(updatedDensity), step).SetTo?
      ensures updatedDensity == Apply(DensityUp(old(updatedDensity), step), old(updatedDensity))
      ensures foliage.densityUpdates == old(foliage.densityUpdates) + (if changed then [updatedDensity] else [])
      ensures old(Valid()) && step >= 0.0 ==> Valid()
    {
      DensityUpBounds(updatedDensity, step);
      if updatedDensity + step <= 1.0 {
        updatedDensity := updatedDensity + step;
        foliage.SetDensity(updatedDensity);
        return true;
      } else if updatedDensity < 1.0 {
        updatedDensity := 1.0;
        foliage.SetDensity(updatedDensity);
        return true;
      } else {
        return false;
      }
    }

    /** `stepDownFoliageDistance`, corrected to stop at the minimum far distance. */
    method StepDownFoliageDistance(step: real) returns (changed: bool)
      modifies this`farDistance, foliage`farDistanceUpdates
      ensures changed == DistanceDown(old(farDistance), step, minFarDistance).SetTo?
      ensures farDistance == Apply(DistanceDown(old(farDistance), step, minFarDistance), old(farDistance))
      ensures foliage.farDistanceUpdates == old(foliage.farDistanceUpdates) + (if changed then [farDistance] else [])
      ensures old(Valid()) ==> Valid()
    {
      DistanceDownBounds(farDistance, step, minFarDistance);
      if farDistance > step && farDistance - step >= minFarDistance {
        farDistance := farDistance - step;
        foliage.SetFarDistance(farDistance);
        return true;
      } else if farDistance != step && farDistance > minFarDistance {
        farDistance := minFarDistance;
        foliage.SetFarDistance(farDistance);
        return true;
      } else {
        return false;
      }
    }

    /** `stepUpFoliageDistance`; a change is handed on to the foliage. */
    method StepUpFoliageDistance(step: real) returns (changed: bool)
      modifies this`farDistance, foliage`farDistanceUpdates
      ensures changed == DistanceUp(old(farDistance), step, maxFarDistance).SetTo?
      ensures farDistance == Apply(DistanceUp(old(farDistance), step, maxFarDistance), old(farDistance))
      ensures foliage.farDistanceUpdates == old(foliage.farDistanceUpdates) + (if changed then [farDistance] else [])
      ensures old(Valid()) && step >= 0.0 ==> Valid()
    {
      if farDistance + step <= maxFarDistance {
        farDistance := farDistance + step;
        foliage.SetFarDistance(farDistance);
        return true;
      } else if farDistance < maxFarDistance {
        farDistance := maxFarDistance;
        foliage.SetFarDistance(farDistance);
        return true;
      } else {
        return false;
      }
    }

    /** `setFoliageDistance`: store the clamped distance, hand it on, report success. */
    method SetFoliageDistance(distance: real) returns (success: bool)
      modifies this`farDistance, foliage`farDistanceUpdates
      ensures success
      ensures farDistance == ClampDistance(distance)
      ensures foliage.farDistanceUpdates == old(foliage.farDistanceUpdates) + [farDistance]
      ensures old(Valid()) ==> Valid()
    {
      if distance < 0.0 {
        farDistance := 0.0;
      } else {
        farDistance := distance;
      }
      foliage.SetFarDistance(farDistance);
      return true;
    }

    /** `setFoliageDensity`: store the clamped density, hand it on, report success. */
    method SetFoliageDensity(density: real) returns (success: bool)
      modifies this`updatedDensity, foliage`densityUpdates
      ensures success
      ensures updatedDensity == ClampDensity(density)
      ensures foliage.densityUpdates == old(foliage.densityUpdates) + [updatedDensity]
      ensures old(Valid()) ==> Valid()
    {
      ClampDensityBounds(density);
      if density < 0.0 {
        updatedDensity := 0.0;
      } else if density > 1.0 {
        updatedDensity := 1.0;
      } else {
        updatedDensity := density;
      }
      foliage.SetDensity(updatedDensity);
      return true;
    }

    /** The "foliagedensity" setting, a percentage: a numeric value sets the density to a hundredth of it. */
    method ConfigFoliageDensity(variable: Variable)
      modifies this`updatedDensity, foliage`densityUpdates
      ensures variable.Numeric? ==>
                && updatedDensity == ClampDensity(variable.number / 100.0)
                && foliage.densityUpdates == old(foliage.densityUpdates) + [updatedDensity]
      ensures variable.NonNumeric? ==>
                && updatedDensity == old(updatedDensity)
                && foliage.densityUpdates == old(foliage.densityUpdates)
      ensures old(Valid()) ==> Valid()
    {
      if variable.Numeric? {
        var _ := SetFoliageDensity(variable.number / 100.0);
      }
    }

    /** The "foliagefardistance" setting, a percentage: a numeric value sets the far distance to a hundredth of it. */
    method ConfigFoliageFarDistance(variable: Variable)
      modifies this`farDistance, foliage`farDistanceUpdates
      ensures variable.Numeric? ==>
                && farDistance == ClampDistance(variable.number / 100.0)
                && foliage.farDistanceUpdates == old(foliage.farDistanceUpdates) + [farDistance]
      ensures variable.NonNumeric? ==>
                && farDistance == old(farDistance)
                && foliage.farDistanceUpdates == old(foliage.farDistanceUpdates)
      ensures old(Valid()) ==> Valid()
    {
      if variable.Numeric? {
        var _ := SetFoliageDistance(variable.number / 100.0);
      }
    }
  }
}
