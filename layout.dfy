/** Non-overlapping label layout for one frame (star3map.cpp,
    DrawNonOverlappingStrings): committed label boxes `obs` and reserved boxes
    `reserved`; a label is committed only when it passes the view gate and
    meets no committed or reserved box. */
module Layout {
  import opened Numbers

  datatype Point2 = Point2(x: real, y: real)

  /** An oriented screen-space bounding box (OrientedBounds2f). */
  datatype OrientedBounds = OrientedBounds(vert: seq<Point2>, empty: bool)

  /** The box test the layout relies on: symmetric. */
  ghost predicate Symmetric(intersect: (OrientedBounds, OrientedBounds) -> bool)
  {
    forall a, b :: intersect(a, b) == intersect(b, a)
  }

  /** No two boxes of the list intersect. */
  ghost predicate PairwiseDisjoint(boxes: seq<OrientedBounds>, intersect: (OrientedBounds, OrientedBounds) -> bool)
  {
    forall i, j :: 0 <= i < j < |boxes| ==> !intersect(boxes[i], boxes[j])
  }

  /** `ob` intersects none of `boxes`. */
  predicate ClearOf(ob: OrientedBounds, boxes: seq<OrientedBounds>, intersect: (OrientedBounds, OrientedBounds) -> bool)
  {
    forall i :: 0 <= i < |boxes| ==> !intersect(ob, boxes[i])
  }

  /** The view gate: a direction is considered when its dot product with the
      look direction is at least `limit`. */
  predicate PassesGate(direction: Vec3, lookDir: Vec3, limit: real)
  {
    !(Dot(lookDir, direction) < limit)
  }

  /** The layout state of one frame. `stringBounds` (StringBounds) and
      `intersect` (Intersect) belong to the text and geometry library and are
      taken as given functions. */
  class NonOverlappingStrings {
    const stringBounds: (string, Vec3) -> OrientedBounds
    const intersect: (OrientedBounds, OrientedBounds) -> bool
    var reserved: seq<OrientedBounds>
    var obs: seq<OrientedBounds>

    ghost predicate Valid()
      reads this
    {
      Symmetric(intersect) && PairwiseDisjoint(obs, intersect)
    }

    /** A fresh layout for one frame: nothing committed, nothing reserved. */
    constructor (bounds: (string, Vec3) -> OrientedBounds, intersects: (OrientedBounds, OrientedBounds) -> bool)
      requires Symmetric(intersects)
      ensures Valid()
      ensures stringBounds == bounds && intersect == intersects
      ensures obs == [] && reserved == []
    {
      stringBounds, intersect := bounds, intersects;
      obs, reserved := [], [];
    }

    /** `CanDrawString`: the gate and the committed boxes only; neither the
        reserved boxes nor emptiness are consulted, and nothing changes. */
    method CanDrawString(str: string, direction: Vec3, lookDir: Vec3, limit: real) returns (can: bool)
      ensures can <==> PassesGate(direction, lookDir, limit) && ClearOf(stringBounds(str, direction), obs, intersect)
    {
      if Dot(lookDir, direction) < limit {
        return false;
      }
      var ob := stringBounds(str, direction);
      var i := 0;
      while i < |obs|
        invariant 0 <= i <= |obs|
        invariant ClearOf(ob, obs[..i], intersect)
      {
        if intersect(ob, obs[i]) {
          return false;
        }
        i := i + 1;
      }
      assert obs[..i] == obs;
      return true;
    }

    /** `ReserveString`: a label that passes the gate blocks its box for
        later labels; only `reserved` grows. */
    method ReserveString(str: string, direction: Vec3, lookDir: Vec3, limit: real)
      requires Valid()
      modifies this`reserved
      ensures Valid()
      ensures reserved == if PassesGate(direction, lookDir, limit)
                          then old(reserved) + [stringBounds(str, direction)]
                          else old(reserved)
      ensures obs == old(obs)
    {
      if Dot(lookDir, direction) < limit {
        return;
      }
      var ob := stringBounds(str, direction);
      reserved := reserved + [ob];
    }

    /** `DrawString`: the label is committed (and drawn, reported in `drawn`)
        exactly when it passes the gate, its box is not empty, and the box
        meets no committed and no reserved box. The committed boxes stay
        pairwise disjoint. */
    method DrawString(str: string, direction: Vec3, lookDir: Vec3, limit: real) returns (drawn: bool)
      requires Valid()
      modifies this`obs
      ensures Valid()
      ensures var ob := stringBounds(str, direction);
        drawn <==> PassesGate(direction, lookDir, limit) && !ob.empty &&
                   ClearOf(ob, old(obs), intersect) && ClearOf(ob, reserved, intersect)
      ensures obs == if drawn then old(obs) + [stringBounds(str, direction)] else old(obs)
      ensures reserved == old(reserved)
    {
      if Dot(lookDir, direction) < limit {
        return false;
      }
      var ob := stringBounds(str, direction);
      if ob.empty {
        return false;
      }
      var i := 0;
      while i < |obs|
        invariant 0 <= i <= |obs|
        invariant ClearOf(ob, obs[..i], intersect)
      {
        if intersect(ob, obs[i]) {
          return false;
        }
        i := i + 1;
      }
      assert obs[..i] == obs;
      i := 0;
      while i < |reserved|
        invariant 0 <= i <= |reserved|
        invariant ClearOf(ob, reserved[..i], intersect)
      {
        if intersect(ob, reserved[i]) {
          return false;
        }
        i := i + 1;
      }
      assert reserved[..i] == reserved;
      AppendKeepsDisjoint(obs, ob, intersect);
      obs := obs + [ob];
      drawn := true;
    }

    /** `reserved.clear()` between the two label passes of a frame. */
    method ClearReserved()
      requires Valid()
      modifies this`reserved
      ensures Valid()
      ensures reserved == [] && obs == old(obs)
    {
      reserved := [];
    }
  }

  /** Appending a box that meets none of a pairwise-disjoint list keeps the
      list pairwise disjoint, given a symmetric test. */
  lemma AppendKeepsDisjoint(boxes: seq<OrientedBounds>, ob: OrientedBounds, intersect: (OrientedBounds, OrientedBounds) -> bool)
    requires Symmetric(intersect) && PairwiseDisjoint(boxes, intersect)
    requires ClearOf(ob, boxes, intersect)
    ensures PairwiseDisjoint(boxes + [ob], intersect)
  {
    var s := boxes + [ob];
    forall i, j | 0 <= i < j < |s|
      ensures !intersect(s[i], s[j])
    {
      if j == |boxes| {
        assert !intersect(ob, boxes[i]);
        assert intersect(ob, boxes[i]) == intersect(boxes[i], ob);
      }
    }
  }

  /** The symmetry of the test is needed: with a one-sided test, a box that
      passes the check against the committed list can still meet one of them
      the other way round. */
  lemma AsymmetricTestBreaksDisjointness()
    ensures exists intersect: (OrientedBounds, OrientedBounds) -> bool, ob, boxes ::
      PairwiseDisjoint(boxes, intersect) && ClearOf(ob, boxes, intersect) &&
      !PairwiseDisjoint(boxes + [ob], intersect)
  {
    var a := OrientedBounds([], false);
    var b := OrientedBounds([], true);
    var intersect := (p: OrientedBounds, q: OrientedBounds) => !p.empty && q.empty;
    var s := [a] + [b];
    assert s[0] == a && s[1] == b;
    assert intersect(s[0], s[1]);
    assert !PairwiseDisjoint(s, intersect);
    assert ClearOf(b, [a], intersect);
    assert PairwiseDisjoint([a], intersect);
  }
}
