/** Star sprite size and brightness by apparent magnitude (star3map.cpp,
    GetSpriteDiameter / GetSpriteColorScale): the magnitude is truncated to an
    integer, clamped to 0..6, and looked up in a seven-entry table. */
module SpriteTables {
  import opened Numbers

  const MagToDiam: seq<real> := [2.0, 1.5, 1.25, 1.0, 0.85, 0.75, 0.5]
  const MagToColor: seq<real> := [1.0, 0.9, 0.7, 0.5, 0.3, 0.2, 0.1]

  /** A table that never grows with the magnitude. */
  ghost predicate NonIncreasing(t: seq<real>)
  {
    forall i, j :: 0 <= i <= j < |t| ==> t[i] >= t[j]
  }

  /** `max(0, min(6, (int)magnitude))`. */
  function MagIndex(magnitude: real): (k: nat)
    ensures k < |MagToDiam| && k < |MagToColor|
  {
    ClampInt(0, 6, Trunc(magnitude))
  }

  function GetSpriteDiameter(magnitude: real): (d: real)
    ensures d in MagToDiam
    ensures 0.5 <= d <= 2.0
  {
    MagToDiam[MagIndex(magnitude)]
  }

  function GetSpriteColorScale(magnitude: real): (c: real)
    ensures c in MagToColor
    ensures 0.1 <= c <= 1.0
  {
    MagToColor[MagIndex(magnitude)]
  }

  /** Which table entry a magnitude selects: anything below 1 (negative
      magnitudes included) gets entry 0, [k, k+1) gets entry k, and 6 and
      above get entry 6. */
  lemma MagIndexBands(magnitude: real)
    ensures magnitude < 1.0 ==> MagIndex(magnitude) == 0
    ensures magnitude >= 6.0 ==> MagIndex(magnitude) == 6
    ensures 0.0 <= magnitude < 7.0 ==> MagIndex(magnitude) == magnitude.Floor
  {
  }

  lemma MagIndexMonotone(m1: real, m2: real)
    requires m1 <= m2
    ensures MagIndex(m1) <= MagIndex(m2)
  {
    TruncMonotone(m1, m2);
  }

  /** Both tables are non-increasing, so fainter stars are never drawn larger
      or brighter than brighter ones. */
  lemma TablesNonIncreasing()
    ensures NonIncreasing(MagToDiam) && NonIncreasing(MagToColor)
  {
  }

  lemma DiameterNonIncreasing(m1: real, m2: real)
    requires m1 <= m2
    ensures GetSpriteDiameter(m1) >= GetSpriteDiameter(m2)
  {
    MagIndexMonotone(m1, m2);
    TablesNonIncreasing();
  }

  lemma ColorScaleNonIncreasing(m1: real, m2: real)
    requires m1 <= m2
    ensures GetSpriteColorScale(m1) >= GetSpriteColorScale(m2)
  {
    MagIndexMonotone(m1, m2);
    TablesNonIncreasing();
  }
}
