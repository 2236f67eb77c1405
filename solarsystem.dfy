/** The solar-system part of the engine (engine/PlanetFinderEngine.cpp): the
    planet table, the moon's drifting elements, the moon-longitude folding, the
    barycentre that places the sun, and the sprite list handed to the star
    view. Orbit propagation, the trigonometry and the moon perturbation series
    are not part of this model; they enter as the functions of an
    `Ephemeris`. */
module SolarSystem {
  import opened Numbers
  import TimeBase

  const PlanetsNumber: nat := 9
  /** Index of Earth in the planet table. */
  const EarthIndex: nat := 2
  /** The sun's mass in Earth masses. */
  const SunMass: real := 333000.0

  /** A texture handle; loading is outside this model. */
  datatype Texture = NoTexture | TextureFile(file: string)

  /** The arguments of Planet::Init after the name: mass, sidereal period,
      semi-major axis, eccentricity, inclination, longitude of the ascending
      node, longitude of perihelion, mean longitude at J2000, and the
      apparent-magnitude formula (whether there is one, its constant term and
      its phase coefficients). */
  datatype Elements = Elements(
    mass: real, period: real, a: real, e: real, incl: real,
    longAscNode: real, longPeri: real, meanLong: real,
    hasMagnitude: bool, magBase: real, magPhase: real, magPhaseHigh: real, magPhasePower: real)

  /** A Planet as the list builder uses it. `scale` defaults to 1 and only
      Saturn's is changed. */
  datatype Planet = Planet(name: string, elements: Elements, scale: real, texture: Texture)

  /** A sprite of the star view (star3map::Sprite). */
  datatype Sprite = Sprite(direction: Vec3, magnitude: real, scale: int, name: string, color: Vec4, tex: Texture)

  const White: Vec4 := Vec4(1.0, 1.0, 1.0, 1.0)

  /** Planet::Init, whose body is not part of this model: taken to replace
      the name and the elements and to keep the scale and the texture. */
  function InitPlanet(p: Planet, name: string, elements: Elements): Planet
  {
    p.(name := name, elements := elements)
  }

  /** The planets as initPlanets sets them up, in table order, over member
      objects that carry the given textures. */
  function PlanetTable(textures: seq<Texture>): (t: seq<Planet>)
    requires |textures| == PlanetsNumber
    ensures |t| == PlanetsNumber
    ensures forall i :: 0 <= i < PlanetsNumber ==> t[i].texture == textures[i]
  {
    [ Planet("Mercury", Elements(0.0558, 87.969, 0.38709893, 0.20563069, 7.00487, 48.33167, 77.45645, 252.25084, true, -0.36, 0.027, 2.2e-13, 6.0), 1.0, textures[0]),
      Planet("Venus", Elements(0.815, 224.701, 0.72333199, 0.00677323, 3.39471, 76.68069, 131.53298, 181.97973, true, -4.34, 0.013, 4.2e-7, 3.0), 1.0, textures[1]),
      Planet("Earth", Elements(1.0, 365.256, 1.00000011, 0.01671022, 0.00005, -11.26064, 102.94719, 100.46435, false, 0.0, 0.0, 0.0, 0.0), 1.0, textures[2]),
      Planet("Mars", Elements(0.1075, 686.980, 1.52366231, 0.09341233, 1.85061, 49.57854, 336.04084, 355.45332, true, -1.51, 0.016, 0.0, 1.0), 1.0, textures[3]),
      Planet("Jupiter", Elements(17.83, 4332.589, 5.20336301, 0.04839266, 1.30530, 100.55615, 14.75385, 34.40438, true, -9.25, 0.014, 0.0, 1.0), 1.0, textures[4]),
      Planet("Saturn", Elements(95.147, 10759.22, 9.53707032, 0.05415060, 2.48446, 113.71504, 92.43194, 49.94432, true, -9.0, 0.044, 0.0, 1.0), 2.0, textures[5]),
      Planet("Uranus", Elements(14.54, 30685.4, 19.19126393, 0.04716771, 0.76986, 74.22988, 170.96424, 313.23218, true, -7.15, 0.001, 0.0, 1.0), 1.0, textures[6]),
      Planet("Neptune", Elements(17.23, 60189.0, 30.06896348, 0.00858587, 1.76917, 131.72169, 44.97135, 304.88003, true, -6.90, 0.001, 0.0, 1.0), 1.0, textures[7]),
      Planet("Pluto", Elements(0.0022, 90465.0, 39.48168677, 0.24880766, 17.14175, 110.30347, 224.06676, 238.92881, false, 0.0, 0.0, 0.0, 0.0), 1.0, textures[8]) ]
  }

  /** The table lists Mercury to Pluto in order from the sun, Earth at
      EarthIndex with unit mass, Saturn alone drawn at double scale, and
      every planet with a positive mass and period. */
  lemma PlanetTableOrder(textures: seq<Texture>)
    requires |textures| == PlanetsNumber
    ensures var t := PlanetTable(textures);
      [t[0].name, t[1].name, t[2].name, t[3].name, t[4].name, t[5].name, t[6].name, t[7].name, t[8].name]
        == ["Mercury", "Venus", "Earth", "Mars", "Jupiter", "Saturn", "Uranus", "Neptune", "Pluto"]
    ensures var t := PlanetTable(textures);
      t[EarthIndex].name == "Earth" && t[EarthIndex].elements.mass == 1.0
    ensures var t := PlanetTable(textures);
      forall i :: 0 <= i < PlanetsNumber ==> (t[i].scale == if i == 5 then 2.0 else 1.0)
    ensures var t := PlanetTable(textures);
      forall i, j :: 0 <= i < j < PlanetsNumber ==> t[i].elements.a < t[j].elements.a
    ensures var t := PlanetTable(textures);
      forall i :: 0 <= i < PlanetsNumber ==> t[i].elements.mass > 0.0 && t[i].elements.period > 0.0
  {
  }

  // ---------------------------------------------------------------------
  // The moon's elements

  /** Longitude of the moon's ascending node, in degrees, `d` days after J2000. */
  function MoonNode(d: real): real
  {
    125.1228 - 0.0529538083 * d
  }

  /** Argument of the moon's perigee, in degrees. */
  function MoonArgPeri(d: real): real
  {
    318.0634 + 0.1643573223 * d
  }

  /** The elements moon.Init receives on day `d`. */
  function MoonElements(d: real): (el: Elements)
    ensures el.longAscNode == MoonNode(d)
    ensures el.longPeri == MoonNode(d) + MoonArgPeri(d)
    ensures el.mass == 1.23e-02 && el.period == 27.322 && el.meanLong == 218.32
    ensures !el.hasMagnitude
  {
    var moonN := MoonNode(d);
    var moonw := MoonArgPeri(d);
    Elements(1.23e-02, 27.322, 2.569519e-03, 0.0549, 5.145, moonN, moonN + moonw, 218.32, false, 0.0, 0.0, 0.0, 0.0)
  }

  /** The node regresses and the perigee advances, both linearly in the
      day count; the longitude of perihelion is a single linear drift. */
  lemma MoonElementsDrift(d1: real, d2: real)
    ensures MoonNode(d2) - MoonNode(d1) == -0.0529538083 * (d2 - d1)
    ensures MoonArgPeri(d2) - MoonArgPeri(d1) == 0.1643573223 * (d2 - d1)
    ensures MoonElements(d1).longPeri == 443.1862 + 0.111403514 * d1
    ensures d1 < d2 ==> MoonNode(d2) < MoonNode(d1) && MoonElements(d1).longPeri < MoonElements(d2).longPeri
  {
  }

  // ---------------------------------------------------------------------
  // Moon longitude folding

  /** The five conditional adjustments applied to `atan2(y, x)`, with `x`
      the x component of the earth-to-moon vector. */
  function FoldLongitude(lon: real, x: real): (r: real)
    ensures -Pi <= lon <= Pi ==> 0.0 <= r < 2.0 * Pi
  {
    var l1 := if lon < -Pi / 2.0 then lon + Pi else lon;
    var l2 := if l1 > Pi / 2.0 then l1 - Pi else l1;
    var l3 := if x < 0.0 then l2 + Pi else l2;
    var l4 := if l3 < 0.0 then l3 + 2.0 * Pi else l3;
    if l4 > 2.0 * Pi then l4 - 2.0 * Pi else l4
  }

  /** When `lon` is atan2's angle for a vector whose x component is `x`
      (so `x < 0` exactly when the angle lies beyond a quarter turn), the
      folding is the identity modulo a full turn: it maps the angle into
      [0, 2 pi) without moving the direction. */
  lemma FoldIsNormalisation(lon: real, x: real)
    requires -Pi <= lon <= Pi
    requires x < 0.0 <==> (lon < -Pi / 2.0 || lon > Pi / 2.0)
    ensures FoldLongitude(lon, x) == if lon < 0.0 then lon + 2.0 * Pi else lon
  {
  }

  /** The last adjustment never applies to an angle from atan2. */
  lemma FoldNeverWrapsDown(lon: real, x: real)
    requires -Pi <= lon <= Pi
    ensures var l1 := if lon < -Pi / 2.0 then lon + Pi else lon;
      var l2 := if l1 > Pi / 2.0 then l1 - Pi else l1;
      var l3 := if x < 0.0 then l2 + Pi else l2;
      var l4 := if l3 < 0.0 then l3 + 2.0 * Pi else l3;
      l4 <= 2.0 * Pi && FoldLongitude(lon, x) == l4
  {
  }

  // ---------------------------------------------------------------------
  // Barycentre

  /** `sum_{i<n} pos[i] * planets[i].mass`. */
  function MassMoment(planets: seq<Planet>, pos: seq<Vec3>, n: nat): Vec3
    requires n <= |planets| && n <= |pos|
  {
    if n == 0 then Zero else Add(MassMoment(planets, pos, n - 1), Scale(pos[n - 1], planets[n - 1].elements.mass))
  }

  /** `planetsCenterOfMass * (-1 / sunMass)`. */
  function SunPosition(moment: Vec3): Vec3
  {
    Scale(moment, -1.0 / SunMass)
  }

  /** The sun is placed so that the mass moment of the whole system (the sun
      and the nine planets, Earth included) vanishes. */
  lemma BarycentreAtOrigin(planets: seq<Planet>, pos: seq<Vec3>)
    requires |planets| == PlanetsNumber == |pos|
    ensures Add(Scale(SunPosition(MassMoment(planets, pos, PlanetsNumber)), SunMass), MassMoment(planets, pos, PlanetsNumber)) == Zero
  {
  }

  /** Earth's own term is part of the sum: moving Earth moves the sun by
      Earth's mass over the sun's mass, in the opposite direction. */
  lemma {:induction false} SunFollowsEarth(planets: seq<Planet>, pos: seq<Vec3>, earthPos: Vec3)
    requires |planets| == PlanetsNumber == |pos|
    ensures var m := planets[EarthIndex].elements.mass;
      var moved := pos[EarthIndex := earthPos];
      Sub(MassMoment(planets, moved, PlanetsNumber), MassMoment(planets, pos, PlanetsNumber))
        == Scale(Sub(earthPos, pos[EarthIndex]), m)
  {
    MomentDifference(planets, pos, pos[EarthIndex := earthPos], PlanetsNumber, EarthIndex);
  }

  /** Changing one position changes the mass moment by that position's
      change times its mass, once the sum has reached it. */
  lemma {:induction false} MomentDifference(planets: seq<Planet>, pos: seq<Vec3>, moved: seq<Vec3>, n: nat, k: nat)
    requires n <= |planets| && |pos| == |moved| && n <= |pos| && k < |pos|
    requires forall i :: 0 <= i < |pos| && i != k ==> moved[i] == pos[i]
    ensures Sub(MassMoment(planets, moved, n), MassMoment(planets, pos, n))
      == if k < n then Scale(Sub(moved[k], pos[k]), planets[k].elements.mass) else Zero
  {
    if n > 0 {
      MomentDifference(planets, pos, moved, n - 1, k);
    }
  }

  // ---------------------------------------------------------------------
  // The sprite list

  /** The functions this model takes as given: orbit propagation
      (Planet::position with the tolerance 0.000001), vector length and
      normalisation, the moon's spherical coordinates (`acos(-z/len) - pi/2`
      and `atan2(y, x)`), the perturbation series in degrees, and
      latLongToUnitVector. */
  datatype Ephemeris = Ephemeris(
    position: (Planet, real) -> Vec3,
    length: Vec3 -> real,
    normalize: Vec3 -> Vec3,
    polarLatitude: Vec3 -> real,
    atan2: (real, real) -> real,
    longitudeCorrectionDegrees: real -> real,
    latitudeCorrectionDegrees: real -> real,
    latLongToUnitVector: (real, real) -> Vec3)

  /** The moon's position relative to the sun after the perturbation
      correction, given the moon planet (already re-initialised) and Earth's
      position. */
  function MoonPosition(eph: Ephemeris, moon: Planet, earthPosition: Vec3, d: real): Vec3
  {
    var earthToMoon := eph.position(moon, d);
    var moonRad := eph.length(earthToMoon);
    var moonLat := eph.polarLatitude(earthToMoon);
    var moonLon := FoldLongitude(eph.atan2(earthToMoon.y, earthToMoon.x), earthToMoon.x);
    var lon := moonLon + eph.longitudeCorrectionDegrees(d) * Pi / 180.0;
    var lat := moonLat + eph.latitudeCorrectionDegrees(d) * Pi / 180.0;
    Add(Scale(eph.latLongToUnitVector(lat, lon), moonRad), earthPosition)
  }

  /** `dotRadius`: 5 for the sun and the moon, 2 for a planet, multiplied by
      the scale and truncated back to an int. */
  function DotRadius(isSunOrMoon: bool, scale: real): int
  {
    var base := if isSunOrMoon then 5 else 2;
    Trunc(base as real * scale)
  }

  /** The sprite emitted for slot `i` (-1 is the sun, Earth's slot is the
      moon, any other index is that planet). */
  function SlotSprite(eph: Ephemeris, planets: seq<Planet>, moon: Planet, sunTexture: Texture,
                      current: seq<Vec3>, earthPosition: Vec3, moonPosition: Vec3, sunPosition: Vec3, i: int): Sprite
    requires |planets| == PlanetsNumber == |current|
    requires -1 <= i < PlanetsNumber
  {
    if i != -1 && i != EarthIndex then
      Sprite(eph.normalize(Sub(current[i], earthPosition)), 0.0, DotRadius(false, planets[i].scale), planets[i].name, White, planets[i].texture)
    else if i == -1 then
      Sprite(eph.normalize(Sub(sunPosition, earthPosition)), 0.0, DotRadius(true, 1.0), "Sun", White, sunTexture)
    else
      Sprite(eph.normalize(Sub(moonPosition, earthPosition)), 0.0, DotRadius(true, 1.0), "Moon", White, moon.texture)
  }

  /** The sprites of slots -1 .. n-2, in order. */
  function SlotSprites(eph: Ephemeris, planets: seq<Planet>, moon: Planet, sunTexture: Texture,
                       current: seq<Vec3>, earthPosition: Vec3, moonPosition: Vec3, sunPosition: Vec3, n: nat): (r: seq<Sprite>)
    requires |planets| == PlanetsNumber == |current|
    requires n <= PlanetsNumber + 1
    ensures |r| == n
    ensures forall k :: 0 <= k < n ==> r[k] == SlotSprite(eph, planets, moon, sunTexture, current, earthPosition, moonPosition, sunPosition, k - 1)
  {
    if n == 0 then []
    else SlotSprites(eph, planets, moon, sunTexture, current, earthPosition, moonPosition, sunPosition, n - 1)
         + [SlotSprite(eph, planets, moon, sunTexture, current, earthPosition, moonPosition, sunPosition, n - 2)]
  }

  /** Every planet's position on day `d`. */
  function Positions(eph: Ephemeris, planets: seq<Planet>, d: real): seq<Vec3>
  {
    seq(|planets|, i requires 0 <= i < |planets| => eph.position(planets[i], d))
  }

  /** The list buildSolarSystemList produces for the given planets, on day
      `d`. */
  function SolarSystemList(eph: Ephemeris, planets: seq<Planet>, moon: Planet, sunTexture: Texture, d: real): seq<Sprite>
    requires |planets| == PlanetsNumber
  {
    var earthPosition := eph.position(planets[EarthIndex], d);
    var moonPosition := MoonPosition(eph, moon, earthPosition, d);
    var current := Positions(eph, planets, d);
    var sunPosition := SunPosition(MassMoment(planets, current, PlanetsNumber));
    SlotSprites(eph, planets, moon, sunTexture, current, earthPosition, moonPosition, sunPosition, PlanetsNumber + 1)
  }

  /** Shape of the list: one sprite more than there are planets, the sun
      first, the moon in Earth's slot, every other planet in its own slot in
      table order, no sprite named after the planet table's Earth, and every
      sprite white with magnitude 0. */
  lemma SolarSystemListShape(eph: Ephemeris, textures: seq<Texture>, moon: Planet, sunTexture: Texture, d: real)
    requires |textures| == PlanetsNumber
    ensures var planets := PlanetTable(textures);
      var list := SolarSystemList(eph, planets, moon, sunTexture, d);
      |list| == PlanetsNumber + 1 &&
      list[0].name == "Sun" && list[0].tex == sunTexture &&
      list[1 + EarthIndex].name == "Moon" && list[1 + EarthIndex].tex == moon.texture &&
      (forall i :: 0 <= i < PlanetsNumber && i != EarthIndex ==> list[1 + i].name == planets[i].name) &&
      (forall k :: 0 <= k < |list| ==> list[k].name != "Earth") &&
      (forall k :: 0 <= k < |list| ==> list[k].magnitude == 0.0 && list[k].color == White)
  {
    PlanetTableOrder(textures);
  }

  /** Sprite sizes: 5 for the sun and the moon, 2 for an ordinary planet, 4
      for Saturn. */
  lemma SolarSystemListScales(eph: Ephemeris, textures: seq<Texture>, moon: Planet, sunTexture: Texture, d: real)
    requires |textures| == PlanetsNumber
    ensures var list := SolarSystemList(eph, PlanetTable(textures), moon, sunTexture, d);
      list[0].scale == 5 && list[1 + EarthIndex].scale == 5 && list[1 + 5].scale == 4 &&
      (forall k :: 1 <= k <= PlanetsNumber && k != 1 + EarthIndex && k != 1 + 5 ==> list[k].scale == 2)
  {
    PlanetTableOrder(textures);
    TruncOfInt(5);
    TruncOfInt(4);
    TruncOfInt(2);
  }

  /** The engine's solar-system state. The member Planet objects are values
      here; `planets` holds them in table order. */
  class PlanetFinderEngine {
    var planets: seq<Planet>
    var moon: Planet
    var sunTexture: Texture
    var longitude: real
    var latitude: real
    var secondsSince2000: int
    var daysSince2000: real

    ghost predicate Valid()
      reads this
    {
      |planets| == PlanetsNumber
    }

    /** Construct / initPlanets over member objects that carry the given
        textures (`textures` for the nine planets, `moonTexture` for the
        moon) and the loaded sun texture. */
    constructor (textures: seq<Texture>, moonTexture: Texture, sunTex: Texture)
      requires |textures| == PlanetsNumber
      ensures Valid()
      ensures planets == PlanetTable(textures)
      ensures moon.texture == moonTexture && moon.scale == 1.0
      ensures sunTexture == sunTex
    {
      planets := PlanetTable(textures);
      moon := Planet("", Elements(0.0, 0.0, 0.0, 0.0, 0.0, 0.0, 0.0, 0.0, false, 0.0, 0.0, 0.0, 0.0), 1.0, moonTexture);
      sunTexture := sunTex;
      longitude, latitude := 0.0, 0.0;
      secondsSince2000, daysSince2000 := 0, 0.0;
    }

    /** CPlanetFinderEngine::init: the observer's position in radians and the
        time base, read once. */
    method Init(longitudeDegrees: real, latitudeDegrees: real, clock: real, year2000Time: int, tBiasHours: real)
      modifies this`longitude, this`latitude, this`secondsSince2000, this`daysSince2000
      ensures longitude == longitudeDegrees * Pi / 180.0 && latitude == latitudeDegrees * Pi / 180.0
      ensures secondsSince2000 == TimeBase.SecondsSince2000(clock, year2000Time, tBiasHours)
      ensures daysSince2000 == TimeBase.DaysSince2000(secondsSince2000)
    {
      longitude := longitudeDegrees * Pi / 180.0;
      latitude := latitudeDegrees * Pi / 180.0;
      secondsSince2000 := TimeBase.SecondsSince2000(clock, year2000Time, tBiasHours);
      daysSince2000 := secondsSince2000 as real / (24 * 3600) as real;
    }

    /** buildSolarSystemList: re-initialises the moon for the current day,
        accumulates the mass moment over the planets, places the sun, and
        emits one sprite per slot from -1 to 8. */
    method BuildSolarSystemList(eph: Ephemeris) returns (solarsystem: seq<Sprite>)
      requires Valid()
      modifies this`moon
      ensures Valid()
      ensures moon == InitPlanet(old(moon), "Moon", MoonElements(daysSince2000))
      ensures solarsystem == SolarSystemList(eph, planets, moon, sunTexture, daysSince2000)
    {
      solarsystem := [];
      var moonN := MoonNode(daysSince2000);
      var moonw := MoonArgPeri(daysSince2000);
      var elements := Elements(1.23e-02, 27.322, 2.569519e-03, 0.0549, 5.145, moonN, moonN + moonw, 218.32, false, 0.0, 0.0, 0.0, 0.0);
      assert elements == MoonElements(daysSince2000);
      moon := InitPlanet(moon, "Moon", elements);

      var earthPosition := eph.position(planets[EarthIndex], daysSince2000);
      var moonPosition := CorrectedMoonPosition(eph, earthPosition);
      var current, planetsCenterOfMass := PlanetPositions(eph);
      var sunPosition := Scale(planetsCenterOfMass, -1.0 / SunMass);
      solarsystem := EmitSprites(eph, current, earthPosition, moonPosition, sunPosition);
    }

    /** The moon part of buildSolarSystemList: the earth-to-moon vector in
        spherical coordinates, the longitude folded into [0, 2 pi), the
        perturbation corrections, and back to a position. */
    method CorrectedMoonPosition(eph: Ephemeris, earthPosition: Vec3) returns (moonPosition: Vec3)
      ensures moonPosition == MoonPosition(eph, moon, earthPosition, daysSince2000)
    {
      var earthToMoon := eph.position(moon, daysSince2000);
      var moonRad := eph.length(earthToMoon);
      var moonLat := eph.polarLatitude(earthToMoon);
      var moonLon := eph.atan2(earthToMoon.y, earthToMoon.x);
      if moonLon < -Pi / 2.0 { moonLon := moonLon + Pi; }
      if moonLon > Pi / 2.0 { moonLon := moonLon - Pi; }
      if earthToMoon.x < 0.0 { moonLon := moonLon + Pi; }
      if moonLon < 0.0 { moonLon := moonLon + 2.0 * Pi; }
      if moonLon > 2.0 * Pi { moonLon := moonLon - 2.0 * Pi; }
      moonLon := moonLon + eph.longitudeCorrectionDegrees(daysSince2000) * Pi / 180.0;
      moonLat := moonLat + eph.latitudeCorrectionDegrees(daysSince2000) * Pi / 180.0;
      earthToMoon := eph.latLongToUnitVector(moonLat, moonLon);
      earthToMoon := Scale(earthToMoon, moonRad);
      moonPosition := Add(earthToMoon, earthPosition);
    }

    /** The first loop of buildSolarSystemList: every planet's position, and
        the mass-weighted sum of them. */
    method PlanetPositions(eph: Ephemeris) returns (current: seq<Vec3>, planetsCenterOfMass: Vec3)
      requires Valid()
      ensures current == Positions(eph, planets, daysSince2000)
      ensures planetsCenterOfMass == MassMoment(planets, current, PlanetsNumber)
    {
      planetsCenterOfMass := Zero;
      var currentPosition := new Vec3[PlanetsNumber];
      for i := 0 to PlanetsNumber
        invariant forall k :: 0 <= k < i ==> currentPosition[k] == eph.position(planets[k], daysSince2000)
        invariant planetsCenterOfMass == MassMoment(planets, currentPosition[..], i)
      {
        ghost var before := currentPosition[..];
        currentPosition[i] := eph.position(planets[i], daysSince2000);
        MassMomentPrefix(planets, before, currentPosition[..], i);
        planetsCenterOfMass := Add(planetsCenterOfMass, Scale(currentPosition[i], planets[i].elements.mass));
      }
      current := currentPosition[..];
    }

    /** The second loop of buildSolarSystemList: one sprite per slot, the
        sun at -1 and the moon in Earth's slot. */
    method EmitSprites(eph: Ephemeris, current: seq<Vec3>, earthPosition: Vec3, moonPosition: Vec3, sunPosition: Vec3)
      returns (solarsystem: seq<Sprite>)
      requires Valid() && |current| == PlanetsNumber
      ensures solarsystem == SlotSprites(eph, planets, moon, sunTexture, current, earthPosition, moonPosition, sunPosition, PlanetsNumber + 1)
    {
      solarsystem := [];
      for i := -1 to PlanetsNumber
        invariant solarsystem == SlotSprites(eph, planets, moon, sunTexture, current, earthPosition, moonPosition, sunPosition, i + 1)
      {
        var directionFromEarth: Vec3;
        var tex: Texture;
        var name: string;
        var isSun, isMoon := false, false;
        var scale := 1.0;
        if i != -1 && i != EarthIndex {
          directionFromEarth := eph.normalize(Sub(current[i], earthPosition));
          tex := planets[i].texture;
          name := planets[i].name;
          scale := planets[i].scale;
        } else if i == -1 {
          directionFromEarth := eph.normalize(Sub(sunPosition, earthPosition));
          tex := sunTexture;
          name := "Sun";
          isSun := true;
        } else {
          directionFromEarth := eph.normalize(Sub(moonPosition, earthPosition));
          tex := moon.texture;
          name := "Moon";
          isMoon := true;
        }
        var dotRadius := if isSun || isMoon then 5 else 2;
        dotRadius := Trunc(dotRadius as real * scale);
        var sp := Sprite(directionFromEarth, 0.0, dotRadius, name, White, tex);
        solarsystem := solarsystem + [sp];
      }
    }
  }

  /** The mass moment of a prefix depends only on that prefix. */
  lemma {:induction false} MassMomentPrefix(planets: seq<Planet>, pos: seq<Vec3>, pos2: seq<Vec3>, n: nat)
    requires n <= |planets| && n <= |pos| && n <= |pos2|
    requires pos[..n] == pos2[..n]
    ensures MassMoment(planets, pos, n) == MassMoment(planets, pos2, n)
  {
    if n > 0 {
      assert pos[..n - 1] == pos[..n][..n - 1];
      assert pos2[..n - 1] == pos2[..n][..n - 1];
      assert pos[n - 1] == pos[..n][n - 1];
      assert pos2[n - 1] == pos2[..n][n - 1];
      MassMomentPrefix(planets, pos, pos2, n - 1);
    }
  }
}
