/**
 * The quality-tier mapper (`getQualityLevel`): a raw quality integer selects one of four
 * optimisation tiers. The thresholds are inclusive upper bounds 60, 75 and 90; quality is
 * not clamped, so any int is accepted.
 */
module Quality {
  import opened GoInt

  function GetQualityLevel(quality: int64): (level: string)
    ensures level == "low" <==> quality <= 60
    ensures level == "medium" <==> 60 < quality <= 75
    ensures level == "high" <==> 75 < quality <= 90
    ensures level == "lossless" <==> 90 < quality
  {
    if quality <= 60 then "low"
    else if quality <= 75 then "medium"
    else if quality <= 90 then "high"
    else "lossless"
  }

  /** Position of a tier from coarsest to finest. */
  function TierRank(level: string): nat
  {
    if level == "low" then 0
    else if level == "medium" then 1
    else if level == "high" then 2
    else 3
  }

  /** A higher quality never selects a coarser tier. */
  lemma LevelMonotone(q1: int64, q2: int64)
    requires q1 <= q2
    ensures TierRank(GetQualityLevel(q1)) <= TierRank(GetQualityLevel(q2))
  {
  }

  /** The tier changes exactly between 60/61, 75/76 and 90/91. */
  lemma LevelBoundaries()
    ensures GetQualityLevel(60) == "low" && GetQualityLevel(61) == "medium"
    ensures GetQualityLevel(75) == "medium" && GetQualityLevel(76) == "high"
    ensures GetQualityLevel(90) == "high" && GetQualityLevel(91) == "lossless"
    ensures GetQualityLevel(0) == "low" && GetQualityLevel(-5) == "low" && GetQualityLevel(100) == "lossless"
  {
  }
}
