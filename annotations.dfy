/** The live annotations of the star view (star3map.cpp): constellation line
    groups keyed by their line set, and text labels keyed by name. Each frame
    the candidates are created or marked seen, then every entry is aged and
    terminated entries that were not seen recently are purged. */
module Annotations {
  import opened Numbers
  import opened Fade
  import Layout

  /** How long a terminated entry survives after it was last seen. */
  const GraceTime: real := 1.0

  /** The identity of a constellation's line set (star3map.cpp's `dynamicLines` map
      keys by its address; here by its position in the constellation list). */
  type LinesId = nat

  /** A keyed annotation: DynamicLabel (key = name) or DynamicLines
      (key = line set). */
  datatype Dynamic<K> = Dynamic(key: K, fader: Fader)

  type DynamicLabel = Dynamic<string>
  type DynamicLines = Dynamic<LinesId>

  /** Every entry is stored under its own key, so there is at most one entry
      per key and it is the one for that key. */
  ghost predicate KeyedByOwnKey<K>(m: map<K, Dynamic<K>>)
  {
    forall k | k in m :: m[k].key == k
  }

  /** The keep rule applied after aging: an entry stays unless it is
      terminated and was last seen at least GraceTime ago. */
  predicate Survives(f: Fader, now: real)
  {
    f.state != Terminate || now - f.lastSeen < GraceTime
  }

  function AgedEntry<K>(e: Dynamic<K>, now: real): Dynamic<K>
  {
    e.(fader := Aged(e.fader, now))
  }

  /** The map after one aging pass at time `now`. */
  function AgedEntries<K>(m: map<K, Dynamic<K>>, now: real): map<K, Dynamic<K>>
  {
    map k | k in m && Survives(Aged(m[k].fader, now), now) :: AgedEntry(m[k], now)
  }

  /** The purge rule: every entry is aged once; it is kept iff its aged state
      is not Terminate or it was seen less than GraceTime ago; no key is added;
      the one-entry-per-key invariant is kept. */
  lemma PurgeRule<K>(m: map<K, Dynamic<K>>, now: real)
    requires KeyedByOwnKey(m)
    ensures var r := AgedEntries(m, now);
      && r.Keys <= m.Keys
      && (forall k | k in m ::
            (k in r <==> Aged(m[k].fader, now).state != Terminate || now - m[k].fader.lastSeen < GraceTime))
      && (forall k | k in r :: r[k] == Dynamic(k, Aged(m[k].fader, now)))
      && KeyedByOwnKey(r)
  {
    forall k | k in m
      ensures Aged(m[k].fader, now).lastSeen == m[k].fader.lastSeen
    {
      AgeKeepsIdentity(m[k].fader, now);
    }
  }

  /** An entry that is not terminated after aging is never purged. */
  lemma LiveEntriesSurvive<K>(m: map<K, Dynamic<K>>, k: K, now: real)
    requires k in m && Aged(m[k].fader, now).state != Terminate
    ensures k in AgedEntries(m, now)
  {
  }

  /** The loop of AgeDynamicLabels / AgeDynamicLines over a copy of the map:
      age each entry and re-insert it under its key when it survives. */
  method AgeEntries<K>(entries: map<K, Dynamic<K>>, now: real) returns (kept: map<K, Dynamic<K>>)
    requires KeyedByOwnKey(entries)
    ensures kept == AgedEntries(entries, now)
  {
    kept := map[];
    var todo := entries.Keys;
    while todo != {}
      invariant todo <= entries.Keys
      invariant forall k :: k in kept <==> k in entries && k !in todo && Survives(Aged(entries[k].fader, now), now)
      invariant forall k | k in kept :: kept[k] == AgedEntry(entries[k], now)
      decreases todo
    {
      var k :| k in todo;
      var dl := AgedEntry(entries[k], now);
      if dl.fader.state != Terminate || now - dl.fader.lastSeen < GraceTime {
        kept := kept[dl.key := dl];
      }
      todo := todo - {k};
    }
  }

  /** The per-frame protocol for one candidate: create the entry if the key is
      absent, otherwise mark the existing entry seen. */
  function Touched<K>(m: map<K, Dynamic<K>>, key: K, created: Fader, now: real): map<K, Dynamic<K>>
  {
    if key !in m then m[key := Dynamic(key, created)]
    else m[key := m[key].(fader := MarkedSeen(m[key].fader, now))]
  }

  /** Touching adds exactly the candidate's key, keeps one entry per key,
      leaves every other entry alone, and on an existing entry changes only
      when it was last seen (its fade phase is not reset). */
  lemma TouchRule<K>(m: map<K, Dynamic<K>>, key: K, created: Fader, now: real)
    requires KeyedByOwnKey(m)
    ensures var r := Touched(m, key, created, now);
      && r.Keys == m.Keys + {key}
      && KeyedByOwnKey(r)
      && (forall k | k in m && k != key :: r[k] == m[k])
      && (key !in m ==> r[key].fader == created)
      && (key in m ==> r[key].fader == m[key].fader.(lastSeen := now))
  {
  }

  /** A constellation as the layout sees it (the Lines record). */
  datatype Constellation = Constellation(name: string, center: Vec3, limit: real)

  const LinesColor: Vec4 := Vec4(0.5, 0.5, 0.7, 0.5)
  const NameColor: Vec4 := Vec4(0.5, 0.5, 0.7, 0.8)
  const LinesHold: real := 4.0
  const NameHold: real := 2.5
  const White: Vec4 := Vec4(1.0, 1.0, 1.0, 1.0)
  const ClosestLabelHold: real := 1.0

  /** A constellation is a candidate when the look direction is within its
      own limit. */
  predicate InView(c: Constellation, lookDir: Vec3)
  {
    Dot(lookDir, c.center) > c.limit
  }

  /** The constellations among the first `n` that are in view. */
  function InViewBefore(cs: seq<Constellation>, lookDir: Vec3, n: nat): set<LinesId>
    requires n <= |cs|
  {
    set i: LinesId | i < n && InView(cs[i], lookDir)
  }

  /** The names of the constellations among the first `n` that are in view. */
  function NamesInViewBefore(cs: seq<Constellation>, lookDir: Vec3, n: nat): set<string>
    requires n <= |cs|
  {
    set i | 0 <= i < n && InView(cs[i], lookDir) :: cs[i].name
  }

  /** The line groups once the constellation pass has handled the first `n`
      constellations. */
  function LinesAfterPass(m: map<LinesId, DynamicLines>, cs: seq<Constellation>, lookDir: Vec3, now: real, n: nat)
    : map<LinesId, DynamicLines>
    requires n <= |cs|
  {
    if n == 0 then m
    else
      var p := LinesAfterPass(m, cs, lookDir, now, n - 1);
      if InView(cs[n - 1], lookDir)
      then Touched(p, n - 1, NewFader(cs[n - 1].center, lookDir, 0.0, LinesColor, LinesHold, now), now)
      else p
  }

  /** The labels once the constellation pass has handled the first `n`
      constellations. */
  function LabelsAfterPass(m: map<string, DynamicLabel>, cs: seq<Constellation>, lookDir: Vec3, now: real, n: nat)
    : map<string, DynamicLabel>
    requires n <= |cs|
  {
    if n == 0 then m
    else
      var p := LabelsAfterPass(m, cs, lookDir, now, n - 1);
      if InView(cs[n - 1], lookDir)
      then Touched(p, cs[n - 1].name, NewFader(cs[n - 1].center, lookDir, 0.0, NameColor, NameHold, now), now)
      else p
  }

  /** The constellation pass on line groups: exactly the in-view ones gain or
      keep an entry; pre-existing ones are only marked seen; new ones start a
      fresh fade at the constellation's centre; the rest are untouched. */
  lemma {:induction false} LinesPassRule(m: map<LinesId, DynamicLines>, cs: seq<Constellation>, lookDir: Vec3, now: real, n: nat)
    requires n <= |cs| && KeyedByOwnKey(m)
    ensures var r := LinesAfterPass(m, cs, lookDir, now, n);
      && KeyedByOwnKey(r)
      && r.Keys == m.Keys + InViewBefore(cs, lookDir, n)
      && (forall k | k in m && k !in InViewBefore(cs, lookDir, n) :: r[k] == m[k])
      && (forall k | k in m && k in InViewBefore(cs, lookDir, n) :: r[k].fader == m[k].fader.(lastSeen := now))
      && (forall k | k in InViewBefore(cs, lookDir, n) && k !in m ::
            r[k].fader == NewFader(cs[k].center, lookDir, 0.0, LinesColor, LinesHold, now))
  {
    if n > 0 {
      LinesPassRule(m, cs, lookDir, now, n - 1);
      var p := LinesAfterPass(m, cs, lookDir, now, n - 1);
      TouchRule(p, n - 1, NewFader(cs[n - 1].center, lookDir, 0.0, LinesColor, LinesHold, now), now);
      assert InViewBefore(cs, lookDir, n) ==
        InViewBefore(cs, lookDir, n - 1) + (if InView(cs[n - 1], lookDir) then {n - 1} else {});
    }
  }

  /** A label entry that was just created at `now` by the constellation pass:
      a fresh name-label fade looking along `lookDir`. */
  ghost predicate FreshNameLabel(f: Fader, lookDir: Vec3, now: real)
  {
    f.state == RampUp && f.currAlpha == 0.0 && f.timeStamp == now && f.lastSeen == now &&
    f.color == NameColor && f.duration == NameHold && f.lookDir == lookDir && f.limit == 0.0
  }

  /** Constellation `i` is the first of the first `n` in view that is named `k`. */
  ghost predicate FirstInViewNamed(cs: seq<Constellation>, lookDir: Vec3, n: nat, k: string, i: int)
    requires n <= |cs|
  {
    0 <= i < n && InView(cs[i], lookDir) && cs[i].name == k &&
    forall j :: 0 <= j < i && InView(cs[j], lookDir) ==> cs[j].name != k
  }

  /** The constellation pass on labels: exactly the names of the in-view
      constellations gain or keep an entry; pre-existing ones are only marked
      seen; new ones start a fresh fade at the centre of the first in-view
      constellation with that name; the rest are untouched. */
  lemma {:induction false} LabelsPassRule(m: map<string, DynamicLabel>, cs: seq<Constellation>, lookDir: Vec3, now: real, n: nat)
    requires n <= |cs| && KeyedByOwnKey(m)
    ensures var r := LabelsAfterPass(m, cs, lookDir, now, n);
      && KeyedByOwnKey(r)
      && r.Keys == m.Keys + NamesInViewBefore(cs, lookDir, n)
      && (forall k | k in m && k !in NamesInViewBefore(cs, lookDir, n) :: r[k] == m[k])
      && (forall k | k in m && k in NamesInViewBefore(cs, lookDir, n) :: r[k].fader == m[k].fader.(lastSeen := now))
      && (forall k | k in NamesInViewBefore(cs, lookDir, n) && k !in m ::
            FreshNameLabel(r[k].fader, lookDir, now) &&
            exists i :: FirstInViewNamed(cs, lookDir, n, k, i) && r[k].fader.direction == cs[i].center)
  {
    if n > 0 {
      LabelsPassRule(m, cs, lookDir, now, n - 1);
      var p := LabelsAfterPass(m, cs, lookDir, now, n - 1);
      TouchRule(p, cs[n - 1].name, NewFader(cs[n - 1].center, lookDir, 0.0, NameColor, NameHold, now), now);
      assert NamesInViewBefore(cs, lookDir, n) ==
        NamesInViewBefore(cs, lookDir, n - 1) + (if InView(cs[n - 1], lookDir) then {cs[n - 1].name} else {});
      LabelsOriginStep(m, cs, lookDir, now, n);
    }
  }

  /** The inductive step for the origin of new labels: if every new label
      after n - 1 constellations sits at the first in-view constellation of
      its name, the same holds after n. */
  lemma LabelsOriginStep(m: map<string, DynamicLabel>, cs: seq<Constellation>, lookDir: Vec3, now: real, n: nat)
    requires 0 < n <= |cs| && KeyedByOwnKey(m)
    requires LabelsAfterPass(m, cs, lookDir, now, n - 1).Keys == m.Keys + NamesInViewBefore(cs, lookDir, n - 1)
    requires forall k | k in NamesInViewBefore(cs, lookDir, n - 1) && k !in m ::
      exists i :: FirstInViewNamed(cs, lookDir, n - 1, k, i) &&
        LabelsAfterPass(m, cs, lookDir, now, n - 1)[k].fader.direction == cs[i].center
    ensures LabelsAfterPass(m, cs, lookDir, now, n).Keys == m.Keys + NamesInViewBefore(cs, lookDir, n)
    ensures forall k | k in NamesInViewBefore(cs, lookDir, n) && k !in m ::
      exists i :: FirstInViewNamed(cs, lookDir, n, k, i) &&
        LabelsAfterPass(m, cs, lookDir, now, n)[k].fader.direction == cs[i].center
  {
    var p := LabelsAfterPass(m, cs, lookDir, now, n - 1);
    var r := LabelsAfterPass(m, cs, lookDir, now, n);
    assert NamesInViewBefore(cs, lookDir, n) ==
      NamesInViewBefore(cs, lookDir, n - 1) + (if InView(cs[n - 1], lookDir) then {cs[n - 1].name} else {});
    forall k | k in NamesInViewBefore(cs, lookDir, n) && k !in m
      ensures exists i :: FirstInViewNamed(cs, lookDir, n, k, i) && r[k].fader.direction == cs[i].center
    {
      FirstInViewNamedExtends(cs, lookDir, n, k);
      if k in NamesInViewBefore(cs, lookDir, n - 1) {
        var i :| FirstInViewNamed(cs, lookDir, n - 1, k, i) && p[k].fader.direction == cs[i].center;
        assert r[k].fader.direction == p[k].fader.direction;
        assert FirstInViewNamed(cs, lookDir, n, k, i);
      }
    }
  }

  /** Where the first in-view constellation named `k` lies when one more
      constellation is considered: unchanged if there already was one, the
      new last one otherwise. */
  lemma FirstInViewNamedExtends(cs: seq<Constellation>, lookDir: Vec3, n: nat, k: string)
    requires 0 < n <= |cs| && k in NamesInViewBefore(cs, lookDir, n)
    ensures forall i :: FirstInViewNamed(cs, lookDir, n - 1, k, i) ==> FirstInViewNamed(cs, lookDir, n, k, i)
    ensures k !in NamesInViewBefore(cs, lookDir, n - 1) ==> FirstInViewNamed(cs, lookDir, n, k, n - 1)
  {
    if k !in NamesInViewBefore(cs, lookDir, n - 1) {
      forall j | 0 <= j < n - 1 && InView(cs[j], lookDir)
        ensures cs[j].name != k
      {
        assert cs[j].name in NamesInViewBefore(cs, lookDir, n - 1);
      }
    }
  }

  /** The two maps the star view owns. */
  class AnnotationStore {
    var labels: map<string, DynamicLabel>
    var lines: map<LinesId, DynamicLines>

    ghost predicate Valid()
      reads this
    {
      KeyedByOwnKey(labels) && KeyedByOwnKey(lines)
    }

    constructor ()
      ensures Valid() && labels == map[] && lines == map[]
    {
      labels, lines := map[], map[];
    }

    /** `AgeDynamicLabels`: untouched while aging is paused; otherwise one
        aging pass. */
    method AgeDynamicLabels(now: real, pauseAging: bool)
      requires Valid()
      modifies this`labels
      ensures Valid()
      ensures labels == if pauseAging then old(labels) else AgedEntries(old(labels), now)
      ensures labels.Keys <= old(labels).Keys
    {
      if pauseAging {
        return;
      }
      PurgeRule(labels, now);
      var oldLabels := labels;
      labels := map[];
      labels := AgeEntries(oldLabels, now);
    }

    /** `AgeDynamicLines`: as AgeDynamicLabels, for the line groups. */
    method AgeDynamicLines(now: real, pauseAging: bool)
      requires Valid()
      modifies this`lines
      ensures Valid()
      ensures lines == if pauseAging then old(lines) else AgedEntries(old(lines), now)
      ensures lines.Keys <= old(lines).Keys
    {
      if pauseAging {
        return;
      }
      PurgeRule(lines, now);
      var oldLines := lines;
      lines := map[];
      lines := AgeEntries(oldLines, now);
    }

    /** Create the label `name` if absent, else mark it seen. */
    method TouchLabel(name: string, direction: Vec3, lookDir: Vec3, limit: real, color: Vec4, duration: real, now: real)
      requires Valid()
      modifies this`labels
      ensures Valid()
      ensures labels == Touched(old(labels), name, NewFader(direction, lookDir, limit, color, duration, now), now)
    {
      TouchRule(labels, name, NewFader(direction, lookDir, limit, color, duration, now), now);
      if name !in labels {
        var dl := Dynamic(name, NewFader(direction, lookDir, limit, color, duration, now));
        labels := labels[dl.key := dl];
      } else {
        labels := labels[name := labels[name].(fader := MarkedSeen(labels[name].fader, now))];
      }
    }

    /** Create the line group `id` if absent, else mark it seen. */
    method TouchLines(id: LinesId, direction: Vec3, lookDir: Vec3, limit: real, color: Vec4, duration: real, now: real)
      requires Valid()
      modifies this`lines
      ensures Valid()
      ensures lines == Touched(old(lines), id, NewFader(direction, lookDir, limit, color, duration, now), now)
    {
      TouchRule(lines, id, NewFader(direction, lookDir, limit, color, duration, now), now);
      if id !in lines {
        var dl := Dynamic(id, NewFader(direction, lookDir, limit, color, duration, now));
        lines := lines[dl.key := dl];
      } else {
        lines := lines[id := lines[id].(fader := MarkedSeen(lines[id].fader, now))];
      }
    }

    /** The constellation pass of the star view: every constellation in view
        gets its line group and its name label created or marked seen. */
    method TouchConstellations(cs: seq<Constellation>, lookDir: Vec3, now: real)
      requires Valid()
      modifies this`labels, this`lines
      ensures Valid()
      ensures lines == LinesAfterPass(old(lines), cs, lookDir, now, |cs|)
      ensures labels == LabelsAfterPass(old(labels), cs, lookDir, now, |cs|)
    {
      var i := 0;
      while i < |cs|
        invariant 0 <= i <= |cs|
        invariant Valid()
        invariant lines == LinesAfterPass(old(lines), cs, lookDir, now, i)
        invariant labels == LabelsAfterPass(old(labels), cs, lookDir, now, i)
      {
        var l := cs[i];
        if Dot(lookDir, l.center) > l.limit {
          TouchLines(i, l.center, lookDir, 0.0, LinesColor, LinesHold, now);
          TouchLabel(l.name, l.center, lookDir, 0.0, NameColor, NameHold, now);
        }
        i := i + 1;
      }
    }

    /** The closest-to-centre label: when the chosen candidate's dot product is
        positive, create its label if absent and the layout can place it
        (CanDrawString), or mark the existing label seen. */
    method OfferClosestLabel(nos: Layout.NonOverlappingStrings, name: string, direction: Vec3,
                             lookDir: Vec3, limit: real, dynamicLabelDot: real, now: real)
      requires Valid()
      modifies this`labels
      ensures Valid()
      ensures labels ==
        if dynamicLabelDot <= 0.0 then old(labels)
        else if name in old(labels) then
          old(labels)[name := old(labels)[name].(fader := MarkedSeen(old(labels)[name].fader, now))]
        else if Layout.PassesGate(direction, lookDir, limit) &&
                Layout.ClearOf(nos.stringBounds(name, direction), nos.obs, nos.intersect) then
          old(labels)[name := Dynamic(name, NewFader(direction, lookDir, limit, White, ClosestLabelHold, now))]
        else old(labels)
    {
      if dynamicLabelDot > 0.0 {
        if name !in labels {
          var can := nos.CanDrawString(name, direction, lookDir, limit);
          if can {
            TouchLabel(name, direction, lookDir, limit, White, ClosestLabelHold, now);
          }
        } else {
          TouchLabel(name, direction, lookDir, limit, White, ClosestLabelHold, now);
        }
      }
    }

    /** `DrawDynamicLabels`: `DynamicLabel::render` for every label, in the
        map's iteration order `order` (which lists each label once). The
        committed boxes become exactly `DrawnLabels` of the old ones; see
        DrawnLabelsFacts for what that implies. */
    method DrawDynamicLabels(nos: Layout.NonOverlappingStrings, order: seq<string>)
      requires Valid() && nos.Valid()
      requires |order| == |labels| && forall k :: k in order <==> k in labels
      modifies nos`obs
      ensures nos.Valid()
      ensures nos.reserved == old(nos.reserved)
      ensures nos.obs == DrawnLabels(old(nos.obs), nos.reserved, order, labels, nos.stringBounds, nos.intersect)
      ensures old(nos.obs) <= nos.obs && |nos.obs| <= |old(nos.obs)| + |order|
      ensures BoxesOfLiveLabels(nos.obs[|old(nos.obs)|..], order, labels, nos.stringBounds)
    {
      var i := 0;
      while i < |order|
        invariant 0 <= i <= |order|
        invariant nos.Valid() && nos.reserved == old(nos.reserved)
        invariant nos.obs == DrawnLabels(old(nos.obs), nos.reserved, order[..i], labels, nos.stringBounds, nos.intersect)
      {
        var dl := labels[order[i]];
        assert dl.key == order[i];
        assert order[..i + 1][..i] == order[..i];
        if dl.fader.state != Terminate {
          var _ := nos.DrawString(dl.key, dl.fader.direction, dl.fader.lookDir, dl.fader.limit);
        }
        i := i + 1;
      }
      assert order[..i] == order;
      DrawnLabelsFacts(old(nos.obs), nos.reserved, order, labels, nos.stringBounds, nos.intersect);
    }
  }

  /** The committed boxes after `DynamicLabel::render` of label `name`: a
      label that has not terminated is committed exactly when DrawString
      accepts it (view gate, non-empty box, clear of the committed and the
      reserved boxes). */
  function Rendered(obs: seq<Layout.OrientedBounds>, reserved: seq<Layout.OrientedBounds>, name: string, dl: DynamicLabel,
                    bounds: (string, Vec3) -> Layout.OrientedBounds,
                    intersect: (Layout.OrientedBounds, Layout.OrientedBounds) -> bool): seq<Layout.OrientedBounds>
  {
    var ob := bounds(name, dl.fader.direction);
    if dl.fader.state != Terminate && Layout.PassesGate(dl.fader.direction, dl.fader.lookDir, dl.fader.limit) &&
       !ob.empty && Layout.ClearOf(ob, obs, intersect) && Layout.ClearOf(ob, reserved, intersect)
    then obs + [ob]
    else obs
  }

  /** The committed boxes after rendering the labels of `order`, in order. */
  function DrawnLabels(obs: seq<Layout.OrientedBounds>, reserved: seq<Layout.OrientedBounds>, order: seq<string>,
                       labels: map<string, DynamicLabel>, bounds: (string, Vec3) -> Layout.OrientedBounds,
                       intersect: (Layout.OrientedBounds, Layout.OrientedBounds) -> bool): seq<Layout.OrientedBounds>
    requires forall k :: k in order ==> k in labels
  {
    if order == [] then obs
    else
      var last := order[|order| - 1];
      Rendered(DrawnLabels(obs, reserved, order[..|order| - 1], labels, bounds, intersect), reserved, last, labels[last], bounds, intersect)
  }

  /** `box` is the box of a label of `order` that has not terminated. */
  ghost predicate LiveLabelBox(box: Layout.OrientedBounds, order: seq<string>,
                               labels: map<string, DynamicLabel>, bounds: (string, Vec3) -> Layout.OrientedBounds)
  {
    exists q :: 0 <= q < |order| && order[q] in labels && labels[order[q]].fader.state != Terminate &&
                box == bounds(order[q], labels[order[q]].fader.direction)
  }

  /** Every box of `boxes` is such a box. */
  ghost predicate BoxesOfLiveLabels(boxes: seq<Layout.OrientedBounds>, order: seq<string>,
                                    labels: map<string, DynamicLabel>, bounds: (string, Vec3) -> Layout.OrientedBounds)
  {
    forall p :: 0 <= p < |boxes| ==> LiveLabelBox(boxes[p], order, labels, bounds)
  }

  /** Rendering the labels of `order` only appends to the committed boxes, at
      most one box per label, each the box of a label that has not terminated;
      a terminated label adds nothing; and with a symmetric box test the
      committed boxes stay pairwise disjoint. */
  lemma {:induction false} DrawnLabelsFacts(obs: seq<Layout.OrientedBounds>, reserved: seq<Layout.OrientedBounds>, order: seq<string>,
                                            labels: map<string, DynamicLabel>, bounds: (string, Vec3) -> Layout.OrientedBounds,
                                            intersect: (Layout.OrientedBounds, Layout.OrientedBounds) -> bool)
    requires forall k :: k in order ==> k in labels
    ensures var r := DrawnLabels(obs, reserved, order, labels, bounds, intersect);
      && obs <= r && |r| <= |obs| + |order|
      && BoxesOfLiveLabels(r[|obs|..], order, labels, bounds)
      && (Layout.Symmetric(intersect) && Layout.PairwiseDisjoint(obs, intersect) ==> Layout.PairwiseDisjoint(r, intersect))
  {
    if order != [] {
      var front, last := order[..|order| - 1], order[|order| - 1];
      assert order == front + [last];
      DrawnLabelsFacts(obs, reserved, front, labels, bounds, intersect);
      var prev := DrawnLabels(obs, reserved, front, labels, bounds, intersect);
      var r := DrawnLabels(obs, reserved, order, labels, bounds, intersect);
      var ob := bounds(last, labels[last].fader.direction);
      if r != prev {
        assert r == prev + [ob] && labels[last].fader.state != Terminate;
        assert r[|obs|..] == prev[|obs|..] + [ob];
        LiveLabelBoxesExtend(prev[|obs|..], r[|obs|..], front, last, labels, bounds);
        if Layout.Symmetric(intersect) && Layout.PairwiseDisjoint(obs, intersect) {
          Layout.AppendKeepsDisjoint(prev, ob, intersect);
        }
      } else {
        LiveLabelBoxesExtend(prev[|obs|..], r[|obs|..], front, last, labels, bounds);
      }
    }
  }

  /** Rendering label `last` after those of `front` keeps the new boxes those
      of live labels, whether `last` is committed or not. */
  lemma LiveLabelBoxesExtend(prev: seq<Layout.OrientedBounds>, cur: seq<Layout.OrientedBounds>, front: seq<string>, last: string,
                             labels: map<string, DynamicLabel>, bounds: (string, Vec3) -> Layout.OrientedBounds)
    requires last in labels && BoxesOfLiveLabels(prev, front, labels, bounds)
    requires cur == prev || (cur == prev + [bounds(last, labels[last].fader.direction)] &&
                             labels[last].fader.state != Terminate)
    ensures BoxesOfLiveLabels(cur, front + [last], labels, bounds)
  {
    var order := front + [last];
    forall p | 0 <= p < |cur|
      ensures LiveLabelBox(cur[p], order, labels, bounds)
    {
      if p < |prev| {
        assert LiveLabelBox(prev[p], front, labels, bounds);
        var q :| 0 <= q < |front| && front[q] in labels && labels[front[q]].fader.state != Terminate &&
                 prev[p] == bounds(front[q], labels[front[q]].fader.direction);
        assert order[q] == front[q];
        assert cur[p] == prev[p];
      } else {
        assert cur[p] == bounds(last, labels[last].fader.direction);
        assert order[|front|] == last;
      }
    }
  }

  /** A label created at `created` and never seen again is purged by the
      aging pass in which it terminates: by then ramp-up, hold and ramp-down
      have elapsed, which exceeds the grace window. */
  lemma {:induction false} NeverSeenLabelIsPurged<K>(m: map<K, Dynamic<K>>, k: K, created: real, now: real)
    requires k in m && OnTimeline(m[k].fader, created) && m[k].fader.lastSeen == created
    requires m[k].fader.state != Terminate && Aged(m[k].fader, now).state == Terminate
    ensures k !in AgedEntries(m, now)
  {
    AgeAlongTimeline(m[k].fader, created, now);
    AgeKeepsIdentity(m[k].fader, now);
  }

  /** The `DynamicRenderable` constructor of star3map.cpp leaves `lastSeen` unset. If the indeterminate
      value is large (here 100), a label created at time 0 with a 1-second
      hold and never seen again reaches Terminate at time 4 and still survives
      the purge. */
  lemma NeverSeenLabelLingersAsWritten()
    ensures var f0 := FaderAsWritten(Zero, Zero, 0.0, White, 1.0, 0.0, 100.0);
      var f3 := Aged(Aged(Aged(f0, 1.0), 2.0), 4.0);
      f3.state == Terminate && "Vega" in AgedEntries(map["Vega" := Dynamic("Vega", Aged(Aged(f0, 1.0), 2.0))], 4.0)
  {
    var f0 := FaderAsWritten(Zero, Zero, 0.0, White, 1.0, 0.0, 100.0);
    var f1 := Aged(f0, 1.0);
    assert f1.state == Hold && f1.timeStamp == 0.5;
    var f2 := Aged(f1, 2.0);
    assert f2.state == RampDown && f2.timeStamp == 1.5;
    var f3 := Aged(f2, 4.0);
    assert f3.state == Terminate && f3.lastSeen == 100.0;
  }
}
