/**
 * The three-way risk tiering shared by the upload screen and the dashboard:
 * scores up to 50 are Safe, up to 70 Medium, above 70 High. The limits are
 * literals at every call site; no component reads them from the settings.
 */
module Tiers {

  /** Inclusive upper limit of the Safe tier. */
  const SafeLimit: real := 50.0

  /** Inclusive upper limit of the Medium tier. */
  const MediumLimit: real := 70.0

  datatype Tier = Safe | Medium | High

  /** Tier of a numeric score; a score equal to a limit belongs to the lower tier. */
  function Classify(score: real): Tier {
    if score <= SafeLimit then Safe
    else if score <= MediumLimit then Medium
    else High
  }

  /** Position of a tier in the order Safe < Medium < High. */
  function Rank(t: Tier): nat {
    match t
    case Safe => 0
    case Medium => 1
    case High => 2
  }

  /** A higher score never lands in a lower tier. */
  lemma ClassifyMonotone(a: real, b: real)
    requires a <= b
    ensures Rank(Classify(a)) <= Rank(Classify(b))
  {
  }

  /** The filter predicates of the risk-distribution chart, as written at the call sites. */
  predicate InSafe(score: real) { score <= 50.0 }
  predicate InMedium(score: real) { score > 50.0 && score <= 70.0 }
  predicate InHigh(score: real) { score > 70.0 }

  /** Each filter selects exactly the scores of its tier, so every score passes exactly one of them. */
  lemma FiltersMatchClassify(score: real)
    ensures InSafe(score) <==> Classify(score) == Safe
    ensures InMedium(score) <==> Classify(score) == Medium
    ensures InHigh(score) <==> Classify(score) == High
  {
  }

  /** Colour families used for badges and progress bars. */
  datatype Palette = Emerald | Amber | Red

  function TierPalette(t: Tier): Palette {
    match t
    case Safe => Emerald
    case Medium => Amber
    case High => Red
  }

  /** Colour family chosen by `getRiskBadge`. */
  function BadgePalette(score: real): Palette {
    if score <= 50.0 then Emerald
    else if score <= 70.0 then Amber
    else Red
  }

  /** Colour family chosen by `getProgressColor`. */
  function ProgressPalette(score: real): Palette {
    if score <= 50.0 then Emerald
    else if score <= 70.0 then Amber
    else Red
  }

  /** Badge and progress bar use the tier boundaries, so they always agree with each other and with the tier. */
  lemma StylesFollowTier(score: real)
    ensures BadgePalette(score) == TierPalette(Classify(score))
    ensures ProgressPalette(score) == TierPalette(Classify(score))
  {
  }

  /** `scores.filter(keep).length`. */
  function CountWhere(scores: seq<real>, keep: real -> bool): (n: nat)
    ensures n <= |scores|
  {
    if |scores| == 0 then 0
    else CountWhere(scores[..|scores| - 1], keep) + (if keep(scores[|scores| - 1]) then 1 else 0)
  }

  /** The three tier counts of any list of numeric scores add up to its length. */
  lemma {:induction false} TierCountsPartition(scores: seq<real>)
    ensures CountWhere(scores, InSafe) + CountWhere(scores, InMedium) + CountWhere(scores, InHigh) == |scores|
  {
    if |scores| > 0 {
      TierCountsPartition(scores[..|scores| - 1]);
    }
  }
}
