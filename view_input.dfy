/** The vertical part of a drag (star3map.cpp, ApplyInputInertia and
    ProcessInput): the globe latitude and the manual star-view pitch `phi`
    both move by `-dy` and are clamped to [-90, 90] with
    `max(-90, min(90, angle - dy))`. The horizontal part goes through
    ModuloRange, which is not part of this model. */
module ViewInput {
  import opened Numbers

  const PolarLimit: real := 90.0

  /** The new latitude (or phi) after a vertical drag of `dy`. */
  function DraggedPolar(angle: real, dy: real): (r: real)
    ensures -PolarLimit <= r <= PolarLimit
    ensures -PolarLimit <= angle - dy <= PolarLimit ==> r == angle - dy
    ensures angle - dy > PolarLimit ==> r == PolarLimit
    ensures angle - dy < -PolarLimit ==> r == -PolarLimit
  {
    ClampReal(-PolarLimit, PolarLimit, angle - dy)
  }

  /** Dragging further down never leaves the view higher. */
  lemma DraggedPolarMonotone(angle: real, dy1: real, dy2: real)
    requires dy1 <= dy2
    ensures DraggedPolar(angle, dy1) >= DraggedPolar(angle, dy2)
  {
    ClampRealMonotone(-PolarLimit, PolarLimit, angle - dy2, angle - dy1);
  }

  /** A drag that stays inside the range is undone by the opposite drag;
      one that hits a pole is not (the overshoot is lost). */
  lemma OppositeDragUndoes(angle: real, dy: real)
    requires -PolarLimit <= angle <= PolarLimit
    requires -PolarLimit <= angle - dy <= PolarLimit
    ensures DraggedPolar(DraggedPolar(angle, dy), -dy) == angle
  {
  }

  lemma OvershootIsLost(angle: real, dy: real)
    requires -PolarLimit <= angle <= PolarLimit
    requires angle - dy > PolarLimit
    ensures DraggedPolar(DraggedPolar(angle, dy), -dy) == ClampReal(-PolarLimit, PolarLimit, PolarLimit + dy)
    ensures DraggedPolar(DraggedPolar(angle, dy), -dy) <= angle
    ensures -PolarLimit < angle ==> DraggedPolar(DraggedPolar(angle, dy), -dy) < angle
  {
  }
}
